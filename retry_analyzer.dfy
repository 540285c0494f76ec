/**
 * RetryAnalyzer: TestNG asks it, after every attempt of a test, whether to
 * run the test again. Each analyzer keeps its own attempt counter, bounded
 * by a maximum read once from the configuration when it is built.
 */
module Retry {
  import opened JavaText
  import Config

  /** The status codes of ITestResult. */
  datatype Status = Created | Success | Failure | Skip | SuccessPercentageFailure | Started

  /** The part of ITestResult that the analyzer reads and writes. */
  class TestResult {
    const methodName: string
    var status: Status

    constructor (methodName: string, status: Status)
      ensures this.methodName == methodName && this.status == status
    {
      this.methodName := methodName;
      this.status := status;
    }

    /** ITestResult.isSuccess: only the SUCCESS status counts as success. */
    predicate IsSuccess()
      reads this
    {
      status == Success
    }
  }

  /** What one call of retry decides: the answer, the new counter, the status it sets. */
  datatype Decision = Decision(again: bool, count: int, status: Status)

  /** One call of retry on an attempt that succeeded or did not. */
  function Decide(count: int, max: int, success: bool): Decision {
    if !success && count < max then Decision(true, count + 1, Failure)
    else if !success then Decision(false, count, Failure)
    else Decision(false, count, Success)
  }

  /** The answers retry gives to a run of attempt outcomes (true = success). */
  function Replay(count: int, max: int, outcomes: seq<bool>): (answers: seq<bool>)
    ensures |answers| == |outcomes|
    decreases |outcomes|
  {
    if outcomes == [] then []
    else
      var d := Decide(count, max, outcomes[0]);
      [d.again] + Replay(d.count, max, outcomes[1..])
  }

  function CountOf(bs: seq<bool>, b: bool): nat {
    if bs == [] then 0 else (if bs[0] == b then 1 else 0) + CountOf(bs[1..], b)
  }

  function Min(a: int, b: int): int {
    if a <= b then a else b
  }

  function Max0(a: int): nat {
    if a <= 0 then 0 else a
  }

  /**
   * Over any run of outcomes, retry answers true exactly once per failed
   * attempt until the counter reaches the maximum, and never after.
   */
  lemma {:induction false} ReplayGrantsUpToMax(count: int, max: int, outcomes: seq<bool>)
    ensures CountOf(Replay(count, max, outcomes), true) == Min(CountOf(outcomes, false), Max0(max - count))
    decreases |outcomes|
  {
    if outcomes != [] {
      var d := Decide(count, max, outcomes[0]);
      ReplayGrantsUpToMax(d.count, max, outcomes[1..]);
      assert Replay(count, max, outcomes)[1..] == Replay(d.count, max, outcomes[1..]);
    }
  }

  /** A fresh analyzer grants at most maxRetryCount retries in its whole life. */
  lemma AtMostMaxRetries(max: int, outcomes: seq<bool>)
    ensures CountOf(Replay(0, max, outcomes), true) <= Max0(max)
  {
    ReplayGrantsUpToMax(0, max, outcomes);
  }

  /** With a maximum of 0 (or less) no attempt is ever retried. */
  lemma {:induction false} NoRetriesWithZeroMax(count: int, max: int, outcomes: seq<bool>)
    requires max <= count
    ensures forall i :: 0 <= i < |outcomes| ==> !Replay(count, max, outcomes)[i]
    decreases |outcomes|
  {
    if outcomes != [] {
      NoRetriesWithZeroMax(Decide(count, max, outcomes[0]).count, max, outcomes[1..]);
    }
  }

  class RetryAnalyzer {
    var retryCount: int
    const maxRetryCount: int

    /** The counter starts at 0 and never passes the maximum (0 when the maximum is negative). */
    ghost predicate Valid()
      reads this
    {
      0 <= retryCount <= Max0(maxRetryCount)
    }

    /** The analyzer built when the configuration yields maxRetryCount. */
    constructor (maxRetryCount: int)
      ensures Valid()
      ensures retryCount == 0 && this.maxRetryCount == maxRetryCount
    {
      retryCount := 0;
      this.maxRetryCount := maxRetryCount;
    }

    /**
     * The Java constructor: the maximum comes from ConfigReader.getRetryCount,
     * whose NumberFormatException escapes the constructor.
     */
    static method Create(src: Config.Sources) returns (r: Result<RetryAnalyzer, Exception>)
      ensures r.Err? <==> Config.GetRetryCount(src).Err?
      ensures r.Err? ==> r.error == Config.GetRetryCount(src).error
      ensures r.Ok? ==> fresh(r.value) && r.value.Valid() && r.value.retryCount == 0
      ensures r.Ok? ==> Config.GetRetryCount(src) == Ok(r.value.maxRetryCount)
    {
      match Config.GetRetryCount(src)
      case Ok(max) =>
        var analyzer := new RetryAnalyzer(max);
        r := Ok(analyzer);
      case Err(e) =>
        r := Err(e);
    }

    /**
     * retry(result): a result that is not SUCCESS (a failure, but also a
     * skip) is retried while the counter is below the maximum.
     */
    method Retry(result: TestResult) returns (again: bool)
      requires Valid()
      modifies this`retryCount, result`status
      ensures Valid()
      ensures Decision(again, retryCount, result.status)
           == Decide(old(retryCount), maxRetryCount, old(result.status) == Success)
      ensures old(result.status) != Success && old(retryCount) < maxRetryCount ==>
                again && retryCount == old(retryCount) + 1 && result.status == Failure
      ensures old(result.status) != Success && old(retryCount) >= maxRetryCount ==>
                !again && retryCount == old(retryCount) && result.status == Failure
      ensures old(result.status) == Success ==>
                !again && retryCount == old(retryCount) && result.status == Success
    {
      if !result.IsSuccess() {
        if retryCount < maxRetryCount {
          retryCount := retryCount + 1;
          result.status := Failure;
          return true;
        } else {
          result.status := Failure;
        }
      } else {
        result.status := Success;
      }
      return false;
    }

    /** getRetryCount: an observer. */
    method GetRetryCount() returns (n: int)
      requires Valid()
      ensures n == retryCount && 0 <= n <= Max0(maxRetryCount)
    {
      return retryCount;
    }

    /** getMaxRetryCount: an observer. */
    method GetMaxRetryCount() returns (n: int)
      ensures n == maxRetryCount
    {
      return maxRetryCount;
    }
  }
}
