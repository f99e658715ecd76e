/** The scenarios of the repository's tests, stated over the model: the stage functions the
    tests compose, and the outcomes the tests expect. */
module Scenarios {
  import opened Prelude
  import Results
  import FunctionComposition
  import opened Settlement
  import FutureComposition
  import QueueFuture
  import Guarantor

  /** The error values the tests throw. */
  datatype TestError =
    | SomeError
    | AnotherError
    | FailedToConvertNumberToString(number: int)
    | FailedToConvertStringToNumber(text: string)

  predicate IsDigit(c: char)
  {
    '0' <= c <= '9'
  }

  /** A run of decimal digits. */
  predicate AllDigits(s: string)
  {
    forall i :: 0 <= i < |s| ==> IsDigit(s[i])
  }

  /** The value of a run of decimal digits. */
  function DigitsValue(s: string): nat
    requires AllDigits(s)
  {
    if s == [] then 0 else DigitsValue(s[..|s| - 1]) * 10 + DigitValue(s[|s| - 1])
  }

  function DigitValue(c: char): nat
    requires IsDigit(c)
  {
    c as int - '0' as int
  }

  /** Swift's `Int(text)`: an optional sign and at least one decimal digit, within the 64-bit
      range; anything else is `nil`. */
  function ParseInt(text: string): (r: Option<int>)
    ensures r.Some? ==> -0x8000_0000_0000_0000 <= r.value < 0x8000_0000_0000_0000
  {
    var signed := |text| > 0 && (text[0] == '-' || text[0] == '+');
    var digits := if signed then text[1..] else text;
    if |digits| == 0 || !AllDigits(digits) then None
    else
      var n: int := if signed && text[0] == '-' then -(DigitsValue(digits) as int) else DigitsValue(digits);
      if -0x8000_0000_0000_0000 <= n < 0x8000_0000_0000_0000 then Some(n) else None
  }

  /** Swift's `String(number)` for a non-negative number. */
  function NatString(n: nat): string
  {
    if n < 10 then [('0' as int + n) as char] else NatString(n / 10) + [('0' as int + n % 10) as char]
  }

  /** Swift's `String(number)`. */
  function DecimalString(n: int): string
  {
    if n < 0 then "-" + NatString(-n) else NatString(n)
  }

  // FunctionCompositionTests: throwing stages.

  function ThrowingStringToNumber(text: string): Completion<int, TestError>
  {
    match ParseInt(text)
    case Some(n) => Returned(n)
    case None => Threw(FailedToConvertStringToNumber(text))
  }

  function ThrowingDoubleNumber(n: int): Completion<int, TestError>
  {
    Returned(n * 2)
  }

  /** `stringToNumber >>> doubleNumber` turns "100" into 200 and throws the conversion error for
      "abc"; the pipe `"100" |> stringToNumber |> doubleNumber` gives 200 as well, and piping "abc"
      into `stringToNumber` throws the same error. */
  lemma FunctionCompositionScenarios()
    ensures FunctionComposition.Compose(ThrowingStringToNumber, ThrowingDoubleNumber)("100") == Returned(200)
    ensures FunctionComposition.Compose(ThrowingStringToNumber, ThrowingDoubleNumber)("abc")
            == Threw(FailedToConvertStringToNumber("abc"))
    ensures FunctionComposition.Pipe(FunctionComposition.Pipe("100", ThrowingStringToNumber).value, ThrowingDoubleNumber)
            == Returned(200)
    ensures FunctionComposition.Pipe("abc", ThrowingStringToNumber) == Threw(FailedToConvertStringToNumber("abc"))
  {
    assert DigitsValue("1") == 1;
    assert DigitsValue("10") == 10;
    assert DigitsValue("100") == 100;
    assert ParseInt("100") == Some(100);
    assert !IsDigit("abc"[0]);
    assert ParseInt("abc") == None;
    FunctionComposition.ComposeOutcome(ThrowingStringToNumber, ThrowingDoubleNumber, ThrowingDoubleNumber, "100");
    FunctionComposition.ComposeOutcome(ThrowingStringToNumber, ThrowingDoubleNumber, ThrowingDoubleNumber, "abc");
  }

  // FutureCompositionTests and PromiseCopositionTests: future-returning stages, observed
  // through the state their future settles in.

  function GenerateTestInt(n: int): FutureState<int, TestError>
  {
    Fulfilled(n)
  }

  function DoubleNumber(n: int): FutureState<int, TestError>
  {
    Fulfilled(n * 2)
  }

  function NumberToString(n: int): FutureState<string, TestError>
  {
    Fulfilled(DecimalString(n))
  }

  function NumberToStringThrows(n: int): FutureState<string, TestError>
  {
    Rejected(FailedToConvertNumberToString(n))
  }

  /** `Int(str)!`: a text that is no number traps before the promise is settled, so the future
      never settles. */
  function StringToNumber(text: string): FutureState<int, TestError>
  {
    match ParseInt(text)
    case Some(n) => Fulfilled(n)
    case None => Pending
  }

  lemma Decimals()
    ensures DecimalString(888) == "888" && DecimalString(1776) == "1776" && DecimalString(200) == "200"
    ensures ParseInt("888") == Some(888) && ParseInt("200") == Some(200)
  {
    assert NatString(8) == "8";
    assert NatString(88) == "88";
    assert NatString(888) == "888";
    assert NatString(17) == "17";
    assert NatString(177) == "177";
    assert NatString(1776) == "1776";
    assert NatString(2) == "2";
    assert NatString(20) == "20";
    assert NatString(200) == "200";
    assert DigitsValue("8") == 8;
    assert DigitsValue("88") == 88;
    assert DigitsValue("888") == 888;
    assert DigitsValue("2") == 2;
    assert DigitsValue("20") == 20;
    assert DigitsValue("200") == 200;
  }

  /** `generateTestInt >>> doubleNumber >>> numberToString >>> stringToNumber >>> doubleNumber
      >>> numberToString` (left associative) settles with "1776" for 444. */
  lemma SuccessfulChain()
    ensures
      var c1 := FutureComposition.Compose(GenerateTestInt, DoubleNumber);
      var c2 := FutureComposition.Compose(c1, NumberToString);
      var c3 := FutureComposition.Compose(c2, StringToNumber);
      var c4 := FutureComposition.Compose(c3, DoubleNumber);
      var c5 := FutureComposition.Compose(c4, NumberToString);
      c5(444) == Fulfilled("1776")
  {
    Decimals();
    var c1 := FutureComposition.Compose(GenerateTestInt, DoubleNumber);
    var c2 := FutureComposition.Compose(c1, NumberToString);
    var c3 := FutureComposition.Compose(c2, StringToNumber);
    var c4 := FutureComposition.Compose(c3, DoubleNumber);
    FutureComposition.BindOutcome(DoubleNumber, DoubleNumber, GenerateTestInt(444));
    assert c1(444) == Fulfilled(888);
    FutureComposition.BindOutcome(NumberToString, NumberToString, c1(444));
    assert c2(444) == Fulfilled("888");
    FutureComposition.BindOutcome(StringToNumber, StringToNumber, c2(444));
    assert c3(444) == Fulfilled(888);
    FutureComposition.BindOutcome(DoubleNumber, DoubleNumber, c3(444));
    assert c4(444) == Fulfilled(1776);
    FutureComposition.BindOutcome(NumberToString, NumberToString, c4(444));
  }

  /** `generateTestInt >>> doubleNumber >>> numberToStringThrows >>> stringToNumber` rejects with
      `failedToConvertNumberToString(888)` for 444. */
  lemma FailingChain()
    ensures
      var c1 := FutureComposition.Compose(GenerateTestInt, DoubleNumber);
      var c2 := FutureComposition.Compose(c1, NumberToStringThrows);
      var c3 := FutureComposition.Compose(c2, StringToNumber);
      c3(444) == Rejected(FailedToConvertNumberToString(888))
  {
    var c1 := FutureComposition.Compose(GenerateTestInt, DoubleNumber);
    var c2 := FutureComposition.Compose(c1, NumberToStringThrows);
    FutureComposition.BindOutcome(DoubleNumber, DoubleNumber, GenerateTestInt(444));
    FutureComposition.BindOutcome(NumberToStringThrows, NumberToStringThrows, c1(444));
    assert c2(444) == Rejected(FailedToConvertNumberToString(888));
    FutureComposition.BindOutcome(StringToNumber, StringToNumber, c2(444));
  }

  /** `100 |> doubleNumber |> numberToString |> stringToNumber |> doubleNumber` settles with 400,
      and `100 |> doubleNumber |> numberToStringThrows |> stringToNumber` rejects. */
  lemma PipeScenarios()
    ensures
      var p1 := FutureComposition.PipeValue(100, DoubleNumber);
      var p2 := FutureComposition.PipeFuture(p1, NumberToString);
      var p3 := FutureComposition.PipeFuture(p2, StringToNumber);
      FutureComposition.PipeFuture(p3, DoubleNumber) == Fulfilled(400)
    ensures
      var p1 := FutureComposition.PipeValue(100, DoubleNumber);
      var p2 := FutureComposition.PipeFuture(p1, NumberToStringThrows);
      FutureComposition.PipeFuture(p2, StringToNumber) == Rejected(FailedToConvertNumberToString(200))
  {
    Decimals();
    var p1 := FutureComposition.PipeValue(100, DoubleNumber);
    FutureComposition.BindOutcome(NumberToString, NumberToString, p1);
    var p2 := FutureComposition.PipeFuture(p1, NumberToString);
    assert p2 == Fulfilled("200");
    FutureComposition.BindOutcome(StringToNumber, StringToNumber, p2);
    var p3 := FutureComposition.PipeFuture(p2, StringToNumber);
    assert p3 == Fulfilled(200);
    FutureComposition.BindOutcome(DoubleNumber, DoubleNumber, p3);
    FutureComposition.BindOutcome(NumberToStringThrows, NumberToStringThrows, p1);
    var q2 := FutureComposition.PipeFuture(p1, NumberToStringThrows);
    FutureComposition.BindOutcome(StringToNumber, StringToNumber, q2);
  }

  // ResultTests: `??` chains.

  /** `resultD ?? resultC ?? resultB ?? resultA` gives "testB"; `resultC ?? resultD` gives the
      error of D; `resultB ?? resultC ?? "final"` gives "final". */
  lemma CoalescingScenarios()
    ensures Results.Coalesce([Results.Failure(AnotherError), Results.Failure(SomeError),
                              Results.Success("testB"), Results.Success("testA")]) == Results.Success("testB")
    ensures var c, d := Results.Result<string, TestError>.Failure(SomeError), Results.Result<string, TestError>.Failure(AnotherError);
            c.OrResult(d).Error() == Some(AnotherError) && c.OrValue(d.OrValue("final")) == "final"
  {
    var rs: seq<Results.Result<string, TestError>> :=
      [Results.Failure(AnotherError), Results.Failure(SomeError), Results.Success("testB"), Results.Success("testA")];
    Results.CoalesceFirstSuccess(rs);
    var i :| 0 <= i < |rs| && rs[i].Success? && Results.Coalesce(rs) == rs[i] &&
             forall j :: 0 <= j < i ==> rs[j].Failure?;
    assert i == 2;
  }

  // FutureTests: the queue-based future.

  /** `testMultipleFulfillmentRejectment`: fulfill "test", fulfill "testA", reject leaves the
      first future fulfilled with "test"; reject, then fulfill leaves the second one rejected
      with the first error. */
  method MultipleSettlement() returns (f: QueueFuture.Future<string, TestError>, g: QueueFuture.Future<string, TestError>)
    ensures f.state == Fulfilled("test")
    ensures g.state == Rejected(SomeError)
  {
    f := new QueueFuture.Future();
    f.Fulfill("test");
    f.Fulfill("testA");
    f.Reject(AnotherError);
    g := new QueueFuture.Future();
    g.Reject(SomeError);
    g.Fulfill("test");
  }

  /** The registrations of `testFulfillMultipleHandler` made while the future is pending:
      success, failure, success and finally handlers, all stored in call order. */
  method PendingRegistrations() returns (f: QueueFuture.Future<string, TestError>)
    ensures fresh(f) && f.Valid() && f.state == Pending
    ensures f.stateHandlers == [Handler(Success, 1, 0), Handler(Failure, 2, 0), Handler(Success, 3, 0), Handler(Kind.Finally, 4, 0)]
    ensures f.dispatched == []
  {
    f := new QueueFuture.Future();
    var g := f.OnSuccess(1, 0);
    g := g.OnFailure(2, 0);
    g := g.OnSuccess(3, 0);
    g := g.Finally(4, 0);
  }

  /** `testFulfillMultipleHandler`, continued: fulfilling with "test" and running the flush hands
      the stored success handlers (1 and 3) and the finally handler (4) to their queue in
      registration order; the failure handler (2) is dropped. */
  method FulfilledRegistrations() returns (f: QueueFuture.Future<string, TestError>)
    ensures fresh(f) && f.Valid() && f.state == Fulfilled("test") && f.stateHandlers == [] && !f.flushScheduled
    ensures f.dispatched == [Dispatch(1, 0, WithValue("test")), Dispatch(3, 0, WithValue("test")), Dispatch(4, 0, NoArgument)]
  {
    f := PendingRegistrations();
    f.Fulfill("test");
    ghost var stored := f.stateHandlers;
    f.Flush();
    assert DispatchAll(stored[3..], f.state) == [Dispatch(4, 0, NoArgument)];
    assert DispatchAll(stored[2..], f.state) == [Dispatch(3, 0, WithValue("test")), Dispatch(4, 0, NoArgument)];
    assert DispatchAll(stored[1..], f.state) == DispatchAll(stored[2..], f.state);
  }

  /** `testFulfillMultipleHandler`: after fulfillment and its flush, a finally, a success and a
      failure handler are registered late. Tasks 1 to 6 are handed to their queue in order; the
      failure handlers (2 and 7) never are. */
  method MultipleHandlers() returns (f: QueueFuture.Future<string, TestError>)
    ensures f.state == Fulfilled("test") && f.stateHandlers == []
    ensures f.dispatched == [Dispatch(1, 0, WithValue("test")), Dispatch(3, 0, WithValue("test")),
                             Dispatch(4, 0, NoArgument), Dispatch(5, 0, NoArgument),
                             Dispatch(6, 0, WithValue("test"))]
  {
    f := FulfilledRegistrations();
    var g := f.Finally(5, 0);
    g := f.OnSuccess(6, 0);
    g := f.OnFailure(7, 0);
  }

  /** A success handler registered between the settlement and its flush is handed to its queue
      before the handler registered while the future was pending. */
  method RegistrationBeforeFlush() returns (f: QueueFuture.Future<string, TestError>)
    ensures f.dispatched == [Dispatch(2, 0, WithValue("test")), Dispatch(1, 0, WithValue("test"))]
  {
    f := new QueueFuture.Future();
    var g := f.OnSuccess(1, 0);
    f.Fulfill("test");
    g := f.OnSuccess(2, 0);
    f.Flush();
  }

  // PromiseGuarantorTests.

  /** `testFulfill`: fulfill "test" then reject; the promise stays fulfilled with "test". */
  method GuarantorFulfillThenReject() returns (g: Guarantor.PromiseGuarantor<string, TestError>)
    ensures g.promise.state == Fulfilled("test") && !g.IsPending()
  {
    g := new Guarantor.PromiseGuarantor();
    assert g.IsPending();
    var p := g.Fulfill("test");
    p := g.Reject(AnotherError);
  }

  /** `testReject`: reject then fulfill "123"; the promise stays rejected with `AnotherError`. */
  method GuarantorRejectThenFulfill() returns (g: Guarantor.PromiseGuarantor<string, TestError>)
    ensures g.promise.state == Rejected(AnotherError) && !g.IsPending()
  {
    g := new Guarantor.PromiseGuarantor();
    var p := g.Reject(AnotherError);
    p := g.Fulfill("123");
  }

  /** `testResolveFulfill` and `testResolveRejected`: a function that returns fulfills, one that
      throws rejects with its error, and a later settlement is ignored. */
  method GuarantorResolve() returns (g: Guarantor.PromiseGuarantor<string, TestError>, h: Guarantor.PromiseGuarantor<string, TestError>)
    ensures g.promise.state == Fulfilled("test") && h.promise.state == Rejected(SomeError)
    ensures g.EnsureResolution() && h.EnsureResolution()
  {
    g := new Guarantor.PromiseGuarantor();
    g.Resolve(Returned("test"));
    var p := g.Reject(AnotherError);
    h := new Guarantor.PromiseGuarantor();
    h.Resolve(Threw(SomeError));
    p := h.Fulfill("123");
  }
}
