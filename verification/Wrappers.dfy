/** Result-carrying datatypes and the error values shared by every component. */
module Wrappers {

  datatype Option<+T> = None | Some(value: T)

  datatype Result<+T, +E> = Ok(value: T) | Err(error: E)
}

/** Division facts shared by the counting arguments. */
module Quotients {

  lemma QuotientIs(n: nat, d: nat, q: nat, r: nat)
    requires n == q * d + r && r < d
    ensures n / d == q && n % d == r
  {
    var k: int, e: int := n / d - q, d;
    assert k * e == r - n % d;
    assert k >= 1 ==> k * e >= e;
    assert k <= -1 ==> k * e <= 0 - e;
  }

  lemma NextQuotient(n: nat, d: nat)
    requires d > 0
    ensures n % d + 1 < d ==> (n + 1) / d == n / d && (n + 1) % d == n % d + 1
    ensures n % d + 1 == d ==> (n + 1) / d == n / d + 1 && (n + 1) % d == 0
  {
    if n % d + 1 < d {
      QuotientIs(n + 1, d, n / d, n % d + 1);
    } else {
      assert (n / d + 1) * d == n / d * d + d;
      QuotientIs(n + 1, d, n / d + 1, 0);
    }
  }

  lemma AddDivisor(n: nat, d: nat)
    requires d > 0
    ensures (n + d) / d == n / d + 1 && (n + d) % d == n % d
  {
    assert (n / d + 1) * d == n / d * d + d;
    QuotientIs(n + d, d, n / d + 1, n % d);
  }
}

/** Identifiers, timestamps and `SwarmError` (swarm-core). Reason strings are dropped:
    they only format what the other fields already say. */
module Core {

  datatype AgentId = AgentId(uuid: nat)

  datatype TaskId = TaskId(uuid: nat)

  type Timestamp = int  // nanoseconds since the epoch

  type Duration = nat  // nanoseconds

  datatype SwarmError =
    | AgentNotFound(agent: AgentId)
    | AgentInvalidState(agent: AgentId)
    | TaskNotFound(task: TaskId)
    | InvalidTaskSpec
    | TaskTimeout(task: TaskId)
    | TaskFailed(task: TaskId)
    | PolicyViolation
    | ChannelError
    | Internal
  {
    // Errors that may succeed on a retry.
    predicate IsRetryable() {
      TaskTimeout? || ChannelError?
    }
  }
}
