/** The use-case layer: a use case runs its `execute` producer and turns an
    upstream failure into a final `Result.Error`, so that its flow always
    completes normally. */
module UseCase {
  import opened Results
  import ErrorHandling

  /** A finite flow: the values it emits, in order, and the failure it ends
      with (`None` when it completes normally). */
  datatype Flow<T> = Flow(values: seq<T>, failure: Option<Throwable>) {
    predicate CompletesNormally() { failure.None? }
  }

  /** The `catch` operator: an upstream failure is replaced by the values the
      handler emits for it, and the resulting flow completes normally. */
  function Catch<T>(upstream: Flow<T>, handler: Throwable -> seq<T>): (r: Flow<T>)
    ensures r.CompletesNormally()
    ensures upstream.CompletesNormally() ==> r == upstream
    ensures upstream.failure.Some? ==>
      r.values == upstream.values + handler(upstream.failure.value)
  {
    match upstream.failure
    case None => upstream
    case Some(t) => Flow(upstream.values + handler(t), None)
  }

  /** The result a use case emits for a failure it caught. */
  function CaughtFailure<R>(t: Throwable): Result<R>
  {
    Error(Wrapped(t))
  }

  /** Running a use case: `execute(params)` with every upstream failure
      turned into one trailing `Error` whose exception has the failure as cause. */
  function Invoke<P, R>(execute: P -> Flow<Result<R>>, params: P): (r: Flow<Result<R>>)
    ensures r.CompletesNormally()
    ensures execute(params).CompletesNormally() ==> r == execute(params)
    ensures
      var upstream := execute(params);
      upstream.failure.Some? ==>
        && |r.values| == |upstream.values| + 1
        && r.values[..|upstream.values|] == upstream.values
        && r.values[|upstream.values|] == Error(Wrapped(upstream.failure.value))
  {
    Catch(execute(params), t => [CaughtFailure(t)])
  }

  /** The data of the successful results, in order. */
  function Successes<R>(s: seq<Result<R>>): seq<R>
  {
    if s == [] then []
    else (if s[0].Success? then [s[0].data] else []) + Successes(s[1..])
  }

  /** The number of error results. */
  function ErrorCount<R>(s: seq<Result<R>>): nat
  {
    if s == [] then 0
    else (if s[0].Error? then 1 else 0) + ErrorCount(s[1..])
  }

  lemma {:induction false} SuccessesAppend<R>(a: seq<Result<R>>, b: seq<Result<R>>)
    ensures Successes(a + b) == Successes(a) + Successes(b)
  {
    if a == [] {
      assert a + b == b;
    } else {
      assert (a + b)[0] == a[0];
      assert (a + b)[1..] == a[1..] + b;
      SuccessesAppend(a[1..], b);
    }
  }

  lemma {:induction false} ErrorCountAppend<R>(a: seq<Result<R>>, b: seq<Result<R>>)
    ensures ErrorCount(a + b) == ErrorCount(a) + ErrorCount(b)
  {
    if a == [] {
      assert a + b == b;
    } else {
      assert (a + b)[0] == a[0];
      assert (a + b)[1..] == a[1..] + b;
      ErrorCountAppend(a[1..], b);
    }
  }

  /** A use case never loses or reorders successful data, including what was
      emitted before a failure. */
  lemma InvokeKeepsSuccesses<P, R>(execute: P -> Flow<Result<R>>, params: P)
    ensures Successes(Invoke(execute, params).values) == Successes(execute(params).values)
  {
    var upstream := execute(params);
    if upstream.failure.Some? {
      var r := Invoke(execute, params).values;
      assert r == upstream.values + [CaughtFailure(upstream.failure.value)];
      SuccessesAppend(upstream.values, [CaughtFailure<R>(upstream.failure.value)]);
      assert Successes([CaughtFailure<R>(upstream.failure.value)]) == [];
    }
  }

  /** The errors `execute` emits itself pass through; a failure adds exactly one. */
  lemma InvokeErrorCount<P, R>(execute: P -> Flow<Result<R>>, params: P)
    ensures ErrorCount(Invoke(execute, params).values) ==
      ErrorCount(execute(params).values) + (if execute(params).failure.Some? then 1 else 0)
  {
    var upstream := execute(params);
    if upstream.failure.Some? {
      var r := Invoke(execute, params).values;
      assert r == upstream.values + [CaughtFailure(upstream.failure.value)];
      ErrorCountAppend(upstream.values, [CaughtFailure<R>(upstream.failure.value)]);
      assert ErrorCount([CaughtFailure<R>(upstream.failure.value)]) == 1;
    }
  }

  /** Wrapping a use case's flow a second time changes nothing: its output
      already completes normally. */
  lemma InvokeIdempotent<P, R>(execute: P -> Flow<Result<R>>, params: P)
    ensures Invoke(p => Invoke(execute, p), params) == Invoke(execute, params)
  {
  }

  /** The error a use case appends for a failure carries the failure as its
      cause, so classifying the cause gives the failure's own message, while
      classifying the wrapper itself always gives the generic message. */
  lemma CaughtFailureMessage<P, R>(execute: P -> Flow<Result<R>>, params: P)
    requires execute(params).failure.Some?
    ensures
      var r := Invoke(execute, params).values;
      var t := execute(params).failure.value;
      && r != [] && r[|r| - 1].Error?
      && r[|r| - 1].exception.Wrapped?
      && ErrorHandling.GetError(r[|r| - 1].exception.cause) == ErrorHandling.GetError(t)
      && ErrorHandling.GetError(r[|r| - 1].exception) == ErrorHandling.UnexpectedError
  {
  }

  /** The welcome repository's producer: one constant success. */
  function WelcomeMessage(): Flow<Result<string>>
  {
    Flow([Success("Welcome to the Espert App!")], None)
  }

  /** A use case over the welcome repository emits exactly its one message. */
  lemma WelcomeUseCase()
    ensures Invoke((u: ()) => WelcomeMessage(), ()).values == [Success("Welcome to the Espert App!")]
  {
  }
}
