// PrismaService.transaction: retries a failed transaction with exponential backoff.
module Transactions {

  // One run of the transaction.
  datatype Outcome = Committed | Failed(code: string, message: string)

  predicate Contains(s: string, part: string) {
    exists i, j | 0 <= i <= j <= |s| :: s[i..j] == part
  }

  // A serialization failure or a deadlock.
  predicate Transient(o: Outcome) {
    o.Failed? &&
    (Contains(o.message, "SerializationFailure") || Contains(o.message, "DeadlockDetected") ||
     o.code == "40001" || o.code == "40P01")
  }

  // The two codes and the two texts, wherever they stand in the message, are retried, and nothing else is.
  lemma TransientIff(code: string, message: string, before: string, after: string)
    ensures Transient(Failed("40001", message)) && Transient(Failed("40P01", message))
    ensures Transient(Failed(code, before + "SerializationFailure" + after))
    ensures Transient(Failed(code, before + "DeadlockDetected" + after))
    ensures Transient(Failed(code, message)) ==>
              code in ["40001", "40P01"] ||
              exists i, j | 0 <= i <= j <= |message| :: message[i..j] in ["SerializationFailure", "DeadlockDetected"]
    ensures !Transient(Committed)
  {
    var one, two := before + "SerializationFailure" + after, before + "DeadlockDetected" + after;
    assert one[|before|..|before| + 20] == "SerializationFailure";
    assert two[|before|..|before| + 16] == "DeadlockDetected";
  }

  // NoRuns is the throw after the loop.
  datatype Result = Returned | Thrown(error: Outcome) | NoRuns

  datatype Trace = Trace(result: Result, runs: nat, slept: nat)

  function Power(n: nat): nat {
    if n == 0 then 1 else 2 * Power(n - 1)
  }

  // The run at which the loop stops: the first that is not transient, or the last allowed.
  predicate StopsAt(outcomes: nat -> Outcome, max: nat, k: nat) {
    && 1 <= k <= max
    && (forall i | 1 <= i < k :: Transient(outcomes(i)))
    && (!Transient(outcomes(k)) || k == max)
  }

  // outcomes(i) is how the i-th run ends. The loop runs fn exactly up to its stop and answers with that
  // run's outcome; only the stop can commit; it has slept 100 * (2^k - 2) ms.
  method Transaction(outcomes: nat -> Outcome, maxRetries: nat) returns (t: Trace)
    ensures maxRetries == 0 <==> t.result == NoRuns
    ensures maxRetries == 0 ==> t.runs == 0 && t.slept == 0
    ensures maxRetries >= 1 ==> StopsAt(outcomes, maxRetries, t.runs) && t.slept == 100 * (Power(t.runs) - 2)
    ensures maxRetries >= 1 ==>
              t.result == if outcomes(t.runs) == Committed then Returned else Thrown(outcomes(t.runs))
    ensures Commits(outcomes, t.runs) == if t.result == Returned then 1 else 0
  {
    var attempt, slept := 1, 0;
    while attempt <= maxRetries
      invariant 1 <= attempt
      invariant maxRetries >= 1 ==> attempt <= maxRetries
      invariant forall i | 1 <= i < attempt :: Transient(outcomes(i))
      invariant slept == 100 * (Power(attempt) - 2) && slept >= 0
      invariant Commits(outcomes, attempt - 1) == 0
      decreases maxRetries - attempt
    {
      var outcome := outcomes(attempt);
      if outcome == Committed {
        return Trace(Returned, attempt, slept);
      }
      if Transient(outcome) && attempt < maxRetries {
        slept := slept + Power(attempt) * 100;
        attempt := attempt + 1;
        continue;
      }
      return Trace(Thrown(outcome), attempt, slept);
    }
    t := Trace(NoRuns, 0, 0);
  }

  function Commits(outcomes: nat -> Outcome, n: nat): nat {
    if n == 0 then 0 else Commits(outcomes, n - 1) + (if outcomes(n) == Committed then 1 else 0)
  }
}
