/**
 * FosRserve: the handle on an Rserve session. The R engine behind the connection is not
 * modelled; it is an oracle that, given every program delivered so far and a new program,
 * answers with the shape of the REXP that parseAndEval returns. What is modelled is the Java
 * side: how an answer is decoded, how scripts are loaded and normalised, the text of the list
 * assignments, and the connected-state guards of close and shutdown.
 */
module Rserve {

  import opened Outcomes
  import opened Text

  const EvalFailure := "Error executing R script."
  const ShutdownFailure := "Error shutting down R server."
  const ResetProgram := "rm(list = ls(all = TRUE))"

  /** The R engine: its answer to a program, given every program it has received before. */
  type Engine = (seq<string>, string) -> Reply

  /** What parseAndEval hands back: no REXP, an REXP described by its type tests and accessors, or a transport exception. */
  datatype Reply =
    | NoResult
    | Rexp(tryError: bool, isNull: bool, isVector: bool, isNumeric: bool, isInteger: bool, isString: bool,
           doubles: seq<real>, integer: int, double: real, text: string)
    | TransportFailure(message: string)

  /** The Java value eval returns: null, a double[], an Integer, a Double or a String. */
  datatype RValue = RNull | RDoubles(values: seq<real>) | RInteger(integer: int) | RDouble(double: real) | RString(text: string)

  /**
   * The decoding in eval, by precedence: a try-error is raised, then null, numeric vector,
   * integer, numeric, string, and null for anything else. Every failure, the try-error
   * included, leaves eval wrapped in a FOSException "Error executing R script.".
   */
  function Decode(reply: Reply): (r: Result<RValue>)
    ensures r.Failure? <==> reply.TransportFailure? || (reply.Rexp? && reply.tryError)
    ensures r.Failure? ==> r.error.FosException? && r.error.message == EvalFailure && r.error.cause.Some?
  {
    match reply
    case TransportFailure(m) => Failure(FosException(EvalFailure, Some(RemoteFailure(m))))
    case NoResult => Success(RNull)
    case Rexp(tryError, isNull, isVector, isNumeric, isInteger, isString, ds, i, d, t) =>
      if tryError then Failure(FosException(EvalFailure, Some(FosException(t, None))))
      else if isNull then Success(RNull)
      else if isVector && isNumeric then Success(RDoubles(ds))
      else if isInteger then Success(RInteger(i))
      else if isNumeric then Success(RDouble(d))
      else if isString then Success(RString(t))
      else Success(RNull)
  }

  /** An REXP shape for each Java value, with only the type tests that value needs set. */
  function Encode(v: RValue): Reply {
    match v
    case RNull => Rexp(false, true, false, false, false, false, [], 0, 0.0, "")
    case RDoubles(ds) => Rexp(false, false, true, true, false, false, ds, 0, 0.0, "")
    case RInteger(i) => Rexp(false, false, false, false, true, false, [], i, 0.0, "")
    case RDouble(d) => Rexp(false, false, false, true, false, false, [], 0, d, "")
    case RString(t) => Rexp(false, false, false, false, false, true, [], 0, 0.0, t)
  }

  /** Every Java value eval can return is reached by decoding some reply. */
  lemma DecodeEncode(v: RValue)
    ensures Decode(Encode(v)) == Success(v)
  {
  }

  /** A try-error outranks every other type test: the R error text becomes the cause. */
  lemma TryErrorWins(reply: Reply)
    requires reply.Rexp? && reply.tryError
    ensures Decode(reply) == Failure(FosException(EvalFailure, Some(FosException(reply.text, None))))
  {
  }

  /** A numeric vector is returned as doubles even when it also passes the integer test. */
  lemma NumericVectorBeforeInteger(reply: Reply)
    requires reply.Rexp? && !reply.tryError && !reply.isNull && reply.isVector && reply.isNumeric
    ensures Decode(reply) == Success(RDoubles(reply.doubles))
  {
  }

  // ---------------------------------------------------------------------------------------
  // Script normalisation (load)

  /** String.replaceAll("\r\n", "\n"): each CR LF pair, matched left to right, becomes LF. */
  function StripCrlf(s: string): (r: string)
    ensures |r| <= |s|
    decreases |s|
  {
    if |s| < 2 then s
    else if s[0] == '\r' && s[1] == '\n' then "\n" + StripCrlf(s[2..])
    else [s[0]] + StripCrlf(s[1..])
  }

  /** The number of CR LF pairs, left to right and not overlapping. */
  function CrlfCount(s: string): nat
    decreases |s|
  {
    if |s| < 2 then 0
    else if s[0] == '\r' && s[1] == '\n' then 1 + CrlfCount(s[2..])
    else CrlfCount(s[1..])
  }

  predicate HasCrlf(s: string) {
    exists i :: 0 <= i < |s| - 1 && s[i] == '\r' && s[i + 1] == '\n'
  }

  /** Each replacement shortens the text by exactly one character. */
  lemma {:induction false} StripCrlfLength(s: string)
    ensures |StripCrlf(s)| == |s| - CrlfCount(s)
    decreases |s|
  {
    if |s| >= 2 {
      if s[0] == '\r' && s[1] == '\n' {
        StripCrlfLength(s[2..]);
      } else {
        StripCrlfLength(s[1..]);
      }
    }
  }

  /** Only carriage returns are dropped: with every CR deleted, input and output agree. */
  lemma {:induction false} StripCrlfKeepsOthers(s: string)
    ensures Without('\r', StripCrlf(s)) == Without('\r', s)
    decreases |s|
  {
    if |s| >= 2 {
      if s[0] == '\r' && s[1] == '\n' {
        StripCrlfKeepsOthers(s[2..]);
        assert s[1..][1..] == s[2..];
        assert Without('\r', s) == Without('\r', s[1..]);
        assert Without('\r', s[1..]) == "\n" + Without('\r', s[2..]);
        assert ("\n" + StripCrlf(s[2..]))[1..] == StripCrlf(s[2..]);
      } else {
        StripCrlfKeepsOthers(s[1..]);
        assert ([s[0]] + StripCrlf(s[1..]))[1..] == StripCrlf(s[1..]);
      }
    }
  }

  /** A text without CR LF pairs is loaded as it is. */
  lemma {:induction false} StripCrlfNoPair(s: string)
    requires !HasCrlf(s)
    ensures StripCrlf(s) == s
    decreases |s|
  {
    if |s| >= 2 {
      assert !(s[0] == '\r' && s[1] == '\n');
      StripCrlfNoPair(s[1..]);
      assert [s[0]] + s[1..] == s;
    }
  }

  /** The normalisation is not idempotent: "\r\r\n" becomes "\r\n", which a second pass changes again. */
  lemma StripCrlfNotIdempotent()
    ensures StripCrlf("\r\r\n") == "\r\n"
    ensures StripCrlf(StripCrlf("\r\r\n")) != StripCrlf("\r\r\n")
  {
    assert "\r\r\n"[1..] == "\r\n";
    assert StripCrlf("\r\n"[2..]) == "";
    assert StripCrlf("\r\n") == "\n";
    assert StripCrlf("\n") == "\n";
  }

  /** What a path names on disk. */
  datatype FileNode = RegularFile(contents: string) | Directory | UnreadableFile(reason: string)

  function LoadNotFound(script: string): string {
    "Error loading script '" + script + "' into R (script not found)."
  }

  function LoadUnsupported(script: string): string {
    "Error loading script '" + script + "' into R (unsupported file type)."
  }

  function LoadUnreadable(script: string): string {
    "Error loading script '" + script + "' into R."
  }

  // ---------------------------------------------------------------------------------------
  // Sessions: what eval answers and what the engine has received

  /** The answer to one eval: decoded from the engine when the session is live, a transport failure otherwise. */
  function Answer(engine: Engine, live: bool, history: seq<string>, program: string): Result<RValue> {
    if live then Decode(engine(history, program))
    else Failure(FosException(EvalFailure, Some(RemoteFailure("not connected"))))
  }

  /** The programs the engine has received after one eval. */
  function After(live: bool, history: seq<string>, program: string): seq<string> {
    if live then history + [program] else history
  }

  /** One step of a multi-eval operation: evaluate a program, or raise an error the Java code throws between evals. */
  datatype Step = Send(program: string) | Abort(error: Error)

  datatype Exec = Exec(delivered: seq<string>, outcome: Result<()>)

  /** Running steps in order; the first failure ends the run, and later steps are never evaluated. */
  function Execute(engine: Engine, live: bool, history: seq<string>, steps: seq<Step>): Exec
    decreases |steps|
  {
    if steps == [] then Exec(history, Success(()))
    else
      var prior := Execute(engine, live, history, steps[..|steps| - 1]);
      if prior.outcome.Failure? then prior
      else match steps[|steps| - 1]
        case Abort(e) => Exec(prior.delivered, Failure(e))
        case Send(p) =>
          var a := Answer(engine, live, prior.delivered, p);
          Exec(After(live, prior.delivered, p), if a.Success? then Success(()) else Failure(a.error))
  }

  /** The programs of the Send steps, in order. */
  function Programs(steps: seq<Step>): (r: seq<string>)
    ensures |r| <= |steps|
  {
    if steps == [] then []
    else Programs(steps[..|steps| - 1]) + (if steps[|steps| - 1].Send? then [steps[|steps| - 1].program] else [])
  }

  predicate NoAbort(steps: seq<Step>) {
    forall i :: 0 <= i < |steps| ==> steps[i].Send?
  }

  lemma {:induction false} ProgramsAppend(a: seq<Step>, b: seq<Step>)
    ensures Programs(a + b) == Programs(a) + Programs(b)
    decreases |b|
  {
    if b == [] {
      assert a + b == a;
    } else {
      var b' := b[..|b| - 1];
      assert (a + b)[..|a + b| - 1] == a + b';
      ProgramsAppend(a, b');
    }
  }

  /** Once a prefix of the steps has failed, the rest changes neither the outcome nor what the engine received. */
  lemma {:induction false} FailureIsFinal(engine: Engine, live: bool, history: seq<string>, steps: seq<Step>, k: nat)
    requires k <= |steps|
    requires Execute(engine, live, history, steps[..k]).outcome.Failure?
    ensures Execute(engine, live, history, steps) == Execute(engine, live, history, steps[..k])
    decreases |steps|
  {
    if k < |steps| {
      var init := steps[..|steps| - 1];
      assert init[..k] == steps[..k];
      FailureIsFinal(engine, live, history, init, k);
    } else {
      assert steps[..k] == steps;
    }
  }

  /** A successful live run delivers exactly the programs of its steps. */
  lemma {:induction false} SuccessDeliversAll(engine: Engine, history: seq<string>, steps: seq<Step>)
    requires Execute(engine, true, history, steps).outcome.Success?
    ensures NoAbort(steps)
    ensures Execute(engine, true, history, steps).delivered == history + Programs(steps)
    decreases |steps|
  {
    if steps != [] {
      var init := steps[..|steps| - 1];
      SuccessDeliversAll(engine, history, init);
      assert forall i :: 0 <= i < |init| ==> steps[i] == init[i];
    }
  }

  /** A run on a session that is not live delivers nothing. */
  lemma {:induction false} DeadSessionDeliversNothing(engine: Engine, history: seq<string>, steps: seq<Step>)
    ensures Execute(engine, false, history, steps).delivered == history
    decreases |steps|
  {
    if steps != [] {
      DeadSessionDeliversNothing(engine, history, steps[..|steps| - 1]);
    }
  }

  /** Running two step lists one after the other is running their concatenation. */
  lemma {:induction false} ExecuteAppend(engine: Engine, live: bool, history: seq<string>, a: seq<Step>, b: seq<Step>)
    ensures var x := Execute(engine, live, history, a);
            Execute(engine, live, history, a + b) == if x.outcome.Failure? then x else Execute(engine, live, x.delivered, b)
    decreases |b|
  {
    if b == [] {
      assert a + b == a;
    } else {
      var b' := b[..|b| - 1];
      assert (a + b)[..|a + b| - 1] == a + b';
      ExecuteAppend(engine, live, history, a, b');
    }
  }

  /** A run of one step: an eval, or an error raised before anything is sent. */
  lemma ExecuteOne(engine: Engine, live: bool, history: seq<string>, step: Step)
    ensures step.Abort? ==> Execute(engine, live, history, [step]) == Exec(history, Failure(step.error))
    ensures step.Send? ==>
              var a := Answer(engine, live, history, step.program);
              Execute(engine, live, history, [step]) ==
              Exec(After(live, history, step.program), if a.Success? then Success(()) else Failure(a.error))
  {
    assert [step][..0] == [];
  }

  /** The steps of one eval whose program may be missing: a null program fails inside eval, before delivery. */
  function EvalStep(program: Option<string>): Step {
    match program
    case Some(p) => Send(p)
    case None => Abort(FosException(EvalFailure, Some(NullReference("command"))))
  }

  /** The text of assignStringList: ENV$name <- c(\n, then each value as    'v', separated by ,\n, closed by ). */
  function StringListProgram(env: string, name: string, values: seq<string>): string {
    env + "$" + name + " <- c(\n" + Join(",\n", Enclosed("   '", values, "'")) + ")"
  }

  /** The text of assignIntList: the same shape with unquoted decimal integers. */
  function IntListProgram(env: string, name: string, values: seq<int>): string {
    env + "$" + name + " <- c(\n" + Join(",\n", Prefixed("   ", Decimals(values))) + ")"
  }

  function Decimals(values: seq<int>): (r: seq<string>)
    ensures |r| == |values|
    ensures forall i :: 0 <= i < |values| ==> r[i] == IntToString(values[i])
  {
    seq(|values|, i requires 0 <= i < |values| => IntToString(values[i]))
  }

  /** The item list of an assignment, split back at its separators, gives each value in its quotes, in order. */
  lemma StringListRecovers(env: string, name: string, values: seq<string>)
    requires values != [] && Avoids(values, ',')
    ensures var p := StringListProgram(env, name, values);
            var head := |env + "$" + name + " <- c(\n"|;
            Split(",\n", p[head..|p| - 1]) == Enclosed("   '", values, "'")
  {
    var p := StringListProgram(env, name, values);
    var head := env + "$" + name + " <- c(\n";
    var items := Enclosed("   '", values, "'");
    var body := Join(",\n", items);
    assert p == head + body + ")";
    assert p[|head|..|p| - 1] == body;
    assert Avoids(items, ',') by {
      forall i | 0 <= i < |items| ensures ',' !in items[i] {
        assert items[i] == "   '" + values[i] + "'";
      }
    }
    SplitJoin(",\n", items);
  }

  /** The item list of an integer assignment, split back at its separators, parses to the values in order. */
  lemma IntListRecovers(env: string, name: string, values: seq<int>)
    requires values != []
    ensures var p := IntListProgram(env, name, values);
            var head := |env + "$" + name + " <- c(\n"|;
            var pieces := Split(",\n", p[head..|p| - 1]);
            pieces == Prefixed("   ", Decimals(values)) &&
            forall i :: 0 <= i < |values| && IsInt32(values[i]) ==> ParseInt(pieces[i][3..]) == Some(values[i])
  {
    var p := IntListProgram(env, name, values);
    var head := env + "$" + name + " <- c(\n";
    var items := Prefixed("   ", Decimals(values));
    var body := Join(",\n", items);
    assert p == head + body + ")";
    assert p[|head|..|p| - 1] == body;
    assert Avoids(items, ',') by {
      forall i | 0 <= i < |items| ensures ',' !in items[i] {
        var d := IntToString(values[i]);
        assert items[i] == "   " + d;
        assert forall k :: 0 <= k < |d| ==> d[k] != ',';
      }
    }
    SplitJoin(",\n", items);
    forall i | 0 <= i < |values| && IsInt32(values[i]) ensures ParseInt(items[i][3..]) == Some(values[i]) {
      assert items[i][3..] == IntToString(values[i]);
      ParseIntToString(values[i]);
    }
  }

  /** A handle on an Rserve session. */
  class FosRserve {
    /** The R engine: its answer to a program, given every program it has received before. */
    const engine: Engine
    /** RScorer.rVariableName, which is not part of this model: an uninterpreted renaming. */
    const rVariableName: string -> string
    /** Every program the engine has received, in order. */
    var sent: seq<string>
    /** RConnection.isConnected. */
    var connected: bool
    /** Whether the Rserve server is still up (it stops after a successful shutdown). */
    var serverRunning: bool

    constructor (engine: Engine, rVariableName: string -> string)
      ensures this.engine == engine && this.rVariableName == rVariableName
      ensures sent == [] && connected && serverRunning
    {
      this.engine := engine;
      this.rVariableName := rVariableName;
      sent := [];
      connected := true;
      serverRunning := true;
    }

    predicate Live()
      reads this`connected, this`serverRunning
    {
      connected && serverRunning
    }

    /** eval: hand the program to the engine and decode its answer. */
    method Eval(program: string) returns (r: Result<RValue>)
      modifies this`sent
      ensures r == Answer(engine, Live(), old(sent), program)
      ensures sent == After(Live(), old(sent), program)
    {
      if connected && serverRunning {
        var reply := engine(sent, program);
        sent := sent + [program];
        r := Decode(reply);
      } else {
        r := Failure(FosException(EvalFailure, Some(RemoteFailure("not connected"))));
      }
    }

    /** Runs the steps in order, stopping at the first failure. */
    method Run(steps: seq<Step>) returns (r: Result<()>)
      modifies this`sent
      ensures r == Execute(engine, Live(), old(sent), steps).outcome
      ensures sent == Execute(engine, Live(), old(sent), steps).delivered
    {
      ghost var start := sent;
      var i := 0;
      while i < |steps|
        invariant 0 <= i <= |steps|
        invariant Execute(engine, Live(), start, steps[..i]) == Exec(sent, Success(()))
      {
        assert steps[..i + 1][..i] == steps[..i];
        match steps[i] {
          case Abort(e) =>
            FailureIsFinal(engine, Live(), start, steps, i + 1);
            return Failure(e);
          case Send(p) =>
            var a := Eval(p);
            if a.Failure? {
              FailureIsFinal(engine, Live(), start, steps, i + 1);
              return Failure(a.error);
            }
        }
        i := i + 1;
      }
      assert steps[..i] == steps;
      r := Success(());
    }

    /** load: the script must exist and be a regular file; its CR LF pairs become LF before it is evaluated. */
    method Load(script: string, files: map<string, FileNode>) returns (r: Result<RValue>)
      modifies this`sent
      ensures script !in files ==> r == Failure(FosException(LoadNotFound(script), None)) && sent == old(sent)
      ensures script in files && files[script].Directory? ==>
                r == Failure(FosException(LoadUnsupported(script), None)) && sent == old(sent)
      ensures script in files && files[script].UnreadableFile? ==>
                r == Failure(FosException(LoadUnreadable(script), Some(IoFailure(files[script].reason)))) && sent == old(sent)
      ensures script in files && files[script].RegularFile? ==>
                var program := StripCrlf(files[script].contents);
                r == Answer(engine, Live(), old(sent), program) && sent == After(Live(), old(sent), program)
    {
      if script !in files {
        return Failure(FosException(LoadNotFound(script), None));
      }
      match files[script] {
        case Directory =>
          r := Failure(FosException(LoadUnsupported(script), None));
        case UnreadableFile(reason) =>
          r := Failure(FosException(LoadUnreadable(script), Some(IoFailure(reason))));
        case RegularFile(contents) =>
          r := Eval(StripCrlf(contents));
      }
    }

    /** reset: removes every R object of the session. */
    method Reset() returns (r: Result<RValue>)
      modifies this`sent
      ensures r == Answer(engine, Live(), old(sent), ResetProgram)
      ensures sent == After(Live(), old(sent), ResetProgram)
    {
      r := Eval(ResetProgram);
    }

    /** close: closes the connection if it is open, and does nothing otherwise. */
    method Close()
      modifies this`connected
      ensures !connected
    {
      if connected {
        connected := false;
      }
    }

    /**
     * shutdown: asks the server to stop if the connection is open, and does nothing otherwise.
     * `refusal` is the transport's RserveException, if it raises one.
     */
    method Shutdown(refusal: Option<string>) returns (r: Result<()>)
      modifies this`serverRunning
      ensures !old(connected) ==> r == Success(()) && serverRunning == old(serverRunning)
      ensures old(connected) && refusal.Some? ==>
                r == Failure(FosException(ShutdownFailure, Some(RemoteFailure(refusal.value)))) && serverRunning == old(serverRunning)
      ensures old(connected) && refusal.None? ==> r == Success(()) && !serverRunning
    {
      r := Success(());
      if connected {
        match refusal {
          case Some(m) => r := Failure(FosException(ShutdownFailure, Some(RemoteFailure(m))));
          case None => serverRunning := false;
        }
      }
    }

    /** assignStringList: binds ENV$var to the character vector of the values; an empty list fails before anything is sent. */
    method AssignStringList(varname: string, env: string, values: seq<string>) returns (r: Result<RValue>)
      modifies this`sent
      ensures values == [] ==> r == Failure(IndexOutOfBounds(0, 0)) && sent == old(sent)
      ensures values != [] ==>
                var program := StringListProgram(env, rVariableName(varname), values);
                r == Answer(engine, Live(), old(sent), program) && sent == After(Live(), old(sent), program)
    {
      if |values| == 0 {
        return Failure(IndexOutOfBounds(0, 0));
      }
      var head := env + "$" + rVariableName(varname) + " <- c(\n";
      ghost var items := Enclosed("   '", values, "'");
      var text := head;
      var i := 0;
      while i < |values| - 1
        invariant 0 <= i <= |values| - 1
        invariant text == head + Terminated(",\n", items[..i])
        invariant sent == old(sent)
      {
        TerminatedStep(",\n", head, items, i);
        text := text + ("   '" + values[i] + "'") + ",\n";
        i := i + 1;
      }
      JoinClose(",\n", head, items, ")");
      text := text + ("   '" + values[i] + "'") + ")";
      assert text == head + Join(",\n", items) + ")";
      r := Eval(text);
    }

    /** assignIntList: binds ENV$var to the integer vector of the values; the variable name is used as given. */
    method AssignIntList(varname: string, env: string, values: seq<int>) returns (r: Result<RValue>)
      modifies this`sent
      ensures values == [] ==> r == Failure(IndexOutOfBounds(0, 0)) && sent == old(sent)
      ensures values != [] ==>
                var program := IntListProgram(env, varname, values);
                r == Answer(engine, Live(), old(sent), program) && sent == After(Live(), old(sent), program)
    {
      if |values| == 0 {
        return Failure(IndexOutOfBounds(0, 0));
      }
      var head := env + "$" + varname + " <- c(\n";
      ghost var items := Prefixed("   ", Decimals(values));
      var text := head;
      var i := 0;
      while i < |values| - 1
        invariant 0 <= i <= |values| - 1
        invariant text == head + Terminated(",\n", items[..i])
        invariant sent == old(sent)
      {
        TerminatedStep(",\n", head, items, i);
        text := text + ("   " + IntToString(values[i])) + ",\n";
        i := i + 1;
      }
      JoinClose(",\n", head, items, ")");
      text := text + ("   " + IntToString(values[i])) + ")";
      assert text == head + Join(",\n", items) + ")";
      r := Eval(text);
    }
  }
}
