/** The byte-level contract between host and guest (swarm-plugin/wasm_loader.rs and the example
    guest): memory ranges, result codes, and what survives the trip. */
module WasmAbi {
  import opened Wrappers

  type byte = b: int | 0 <= b < 256

  type I32 = i: int | -0x8000_0000 <= i < 0x8000_0000

  const I32_MAX: I32 := 0x7FFF_FFFF
  const I32_MIN: I32 := -0x8000_0000
  const USIZE_MAX: nat := 0xFFFF_FFFF_FFFF_FFFF
  const RESULT_BUFFER_CAPACITY: I32 := 256 * 1024

  datatype Allocation = Allocation(ptr: I32, len: I32)

  datatype WasmError =
    | InputTooLarge
    | AllocFailed
    | OutOfBounds
    | InvokeTrap
    | ResultTooLong
    | NotJson
    | Unspecified
    | Message(bytes: seq<byte>)
    | DeallocFailed(allocation: Allocation)

  // ---- Ranges of linear memory ----

  function CheckedRange(memoryLen: nat, ptr: I32, len: nat): Result<(nat, nat), WasmError> {
    if ptr < 0 then Err(OutOfBounds)
    else if ptr + len > USIZE_MAX then Err(OutOfBounds)
    else if ptr + len > memoryLen then Err(OutOfBounds)
    else Ok((ptr, ptr + len))
  }

  // A range is granted exactly when it lies in memory; no wrap-around can fake one.
  lemma RangeGrantedIff(memoryLen: nat, ptr: I32, len: nat)
    requires memoryLen <= USIZE_MAX
    ensures CheckedRange(memoryLen, ptr, len).Ok? <==> 0 <= ptr && ptr + len <= memoryLen
    ensures CheckedRange(memoryLen, ptr, len).Ok? ==> CheckedRange(memoryLen, ptr, len).value == (ptr, ptr + len)
  {
  }

  function Overwrite(memory: seq<byte>, at: nat, data: seq<byte>): (r: seq<byte>)
    requires at + |data| <= |memory|
    ensures |r| == |memory| && r[at..at + |data|] == data
    ensures forall i | 0 <= i < |memory| && !(at <= i < at + |data|) :: r[i] == memory[i]
  {
    memory[..at] + data + memory[at + |data|..]
  }

  function ReadBytes(memory: seq<byte>, ptr: I32, len: nat): Result<seq<byte>, WasmError> {
    match CheckedRange(|memory|, ptr, len)
    case Err(e) => Err(e)
    case Ok(range) => Ok(memory[range.0..range.1])
  }

  // ---- Result codes ----

  // Two's-complement negation, then the sign-extending cast to `usize`.
  function NegatedLength(ret: I32): nat {
    if ret == I32_MIN then USIZE_MAX + 1 + I32_MIN else if ret <= 0 then -ret else USIZE_MAX + 1 - ret
  }

  function Decode(memory: seq<byte>, resultPtr: I32, ret: I32, isJson: seq<byte> -> bool): Result<seq<byte>, WasmError> {
    if ret >= 0 then
      if ret > RESULT_BUFFER_CAPACITY then Err(ResultTooLong)
      else
        match ReadBytes(memory, resultPtr, ret)
        case Err(e) => Err(e)
        case Ok(bytes) => if isJson(bytes) then Ok(bytes) else Err(NotJson)
    else if ret == -1 then Err(Unspecified)
    else if NegatedLength(ret) > RESULT_BUFFER_CAPACITY then Err(ResultTooLong)
    else
      match ReadBytes(memory, resultPtr, NegatedLength(ret))
      case Err(e) => Err(e)
      case Ok(bytes) => Err(Message(bytes))
  }

  // The code is within the capacity and the bytes it announces are in memory.
  predicate Announces(memory: seq<byte>, resultPtr: I32, len: int) {
    0 <= len <= RESULT_BUFFER_CAPACITY && 0 <= resultPtr && resultPtr + len <= |memory|
  }

  // Whatever a guest returns, what is decoded is a slice of its memory at the result pointer, no
  // longer than the buffer and of exactly the announced length. For the least `i32` this is so in a
  // build without overflow checks, where its negation wraps; with them the negation panics.
  lemma DecodedOutputIsBounded(memory: seq<byte>, resultPtr: I32, ret: I32, isJson: seq<byte> -> bool)
    ensures var decoded := Decode(memory, resultPtr, ret, isJson);
            && (decoded.Ok? <==> Announces(memory, resultPtr, ret) && isJson(memory[resultPtr..resultPtr + ret]))
            && (decoded.Ok? ==> decoded.value == memory[resultPtr..resultPtr + ret] && |decoded.value| == ret <= 262_144)
            && ((decoded.Err? && decoded.error.Message?) <==> ret < -1 && Announces(memory, resultPtr, 0 - ret))
            && (decoded.Err? && decoded.error.Message? ==>
                  decoded.error.bytes == memory[resultPtr..resultPtr - ret] && |decoded.error.bytes| == -ret <= 262_144)
            && (decoded.Err? ==> !decoded.error.DeallocFailed?)
  {
  }

  // ---- The guest's side: what it leaves in its buffer and the code it returns ----

  function Bytes(s: string): seq<byte> {
    seq(|s|, i requires 0 <= i < |s| => (s[i] as int) % 256)
  }

  const BUFFER_TOO_SMALL: seq<byte> := Bytes("Result buffer too small")

  function SuccessCode(capacity: I32, bytes: seq<byte>): Option<I32> {
    if |bytes| > capacity then None else Some(|bytes|)
  }

  function ErrorCode(capacity: I32, bytes: seq<byte>): I32 {
    if bytes == [] || |bytes| > capacity then -1 else -|bytes|
  }

  // What ends up at the front of the buffer.
  function Payload(capacity: I32, bytes: seq<byte>): seq<byte> {
    if |bytes| > capacity then [] else bytes
  }

  // The message that `write_error_with_fallback` settles on.
  function FallbackMessage(capacity: I32, bytes: seq<byte>): seq<byte> {
    if bytes == [] || ErrorCode(capacity, bytes) != -1 then bytes else BUFFER_TOO_SMALL
  }

  // The buffer after both writes of `write_error_with_fallback`.
  function FallbackBuffer(buf: seq<byte>, bytes: seq<byte>): seq<byte>
    requires |buf| <= I32_MAX
  {
    if bytes == [] then buf
    else if ErrorCode(|buf|, bytes) != -1 then Fill(buf, bytes)
    else Fill(Fill(buf, bytes), BUFFER_TOO_SMALL)
  }

  function Fill(buf: seq<byte>, bytes: seq<byte>): seq<byte>
    requires |buf| <= I32_MAX
  {
    Overwrite(buf, 0, Payload(|buf|, bytes))
  }

  // Copying into the caller's buffer, in place.
  method CopyInto(buf: array<byte>, bytes: seq<byte>)
    requires |bytes| <= buf.Length
    modifies buf
    ensures buf[..] == Overwrite(old(buf[..]), 0, bytes)
  {
    for i := 0 to |bytes|
      invariant forall j | 0 <= j < i :: buf[j] == bytes[j]
      invariant forall j | i <= j < buf.Length :: buf[j] == old(buf[j])
    {
      buf[i] := bytes[i];
    }
  }

  method WriteSuccess(buf: array<byte>, bytes: seq<byte>) returns (rc: Option<I32>)
    requires buf.Length <= I32_MAX
    modifies buf
    ensures rc == SuccessCode(buf.Length, bytes) && buf[..] == Fill(old(buf[..]), bytes)
  {
    if |bytes| > buf.Length {
      return None;
    }
    CopyInto(buf, bytes);
    return Some(|bytes|);
  }

  method WriteError(buf: array<byte>, bytes: seq<byte>) returns (rc: I32)
    requires buf.Length <= I32_MAX
    modifies buf
    ensures rc == ErrorCode(buf.Length, bytes) && buf[..] == Fill(old(buf[..]), bytes)
  {
    if bytes == [] || |bytes| > buf.Length {
      return -1;
    }
    CopyInto(buf, bytes);
    return -|bytes|;
  }

  method WriteErrorWithFallback(buf: array<byte>, bytes: seq<byte>) returns (rc: I32)
    requires buf.Length <= I32_MAX
    modifies buf
    ensures rc == ErrorCode(buf.Length, FallbackMessage(buf.Length, bytes)) && buf[..] == FallbackBuffer(old(buf[..]), bytes)
  {
    if bytes == [] {
      return -1;
    }
    rc := WriteError(buf, bytes);
    if rc != -1 {
      return;
    }
    rc := WriteError(buf, BUFFER_TOO_SMALL);
  }

  // ---- Round trips through the host's result buffer ----

  // The host's view of a result buffer at `ptr`, whatever surrounds it.
  ghost predicate Holds(memory: seq<byte>, ptr: I32, buf: seq<byte>) {
    && |buf| == RESULT_BUFFER_CAPACITY
    && 0 <= ptr && ptr + |buf| <= |memory|
    && memory[ptr..ptr + |buf|] == buf
  }

  lemma ReadBack(memory: seq<byte>, ptr: I32, buf: seq<byte>, n: nat)
    requires Holds(memory, ptr, buf) && n <= |buf|
    ensures ReadBytes(memory, ptr, n) == Ok(buf[..n])
  {
    assert memory[ptr..ptr + n] == memory[ptr..ptr + |buf|][..n];
  }

  // JSON of any length up to the capacity arrives unchanged.
  lemma SuccessRoundTrip(memory: seq<byte>, ptr: I32, buf: seq<byte>, bytes: seq<byte>, isJson: seq<byte> -> bool)
    requires |buf| == RESULT_BUFFER_CAPACITY && Holds(memory, ptr, Fill(buf, bytes)) && isJson(bytes)
    ensures (SuccessCode(RESULT_BUFFER_CAPACITY, bytes).Some?
             && Decode(memory, ptr, SuccessCode(RESULT_BUFFER_CAPACITY, bytes).value, isJson) == Ok(bytes))
       <==> |bytes| <= RESULT_BUFFER_CAPACITY
  {
    if |bytes| <= RESULT_BUFFER_CAPACITY {
      ReadBack(memory, ptr, Fill(buf, bytes), |bytes|);
      assert Fill(buf, bytes)[..|bytes|] == Fill(buf, bytes)[0..0 + |bytes|];
    }
  }

  // An error message arrives unchanged exactly when it has at least two bytes and fits: the empty
  // and the one-byte message collide with the marker for an unspecified error.
  lemma ErrorRoundTripIff(memory: seq<byte>, ptr: I32, buf: seq<byte>, bytes: seq<byte>, isJson: seq<byte> -> bool)
    requires |buf| == RESULT_BUFFER_CAPACITY && Holds(memory, ptr, Fill(buf, bytes))
    ensures var decoded := Decode(memory, ptr, ErrorCode(RESULT_BUFFER_CAPACITY, bytes), isJson);
            if 2 <= |bytes| <= RESULT_BUFFER_CAPACITY then decoded == Err(Message(bytes)) else decoded == Err(Unspecified)
  {
    if 2 <= |bytes| <= RESULT_BUFFER_CAPACITY {
      ReadBack(memory, ptr, Fill(buf, bytes), |bytes|);
      assert Fill(buf, bytes)[..|bytes|] == Fill(buf, bytes)[0..0 + |bytes|];
    }
  }

  // With the fallback, a message that cannot be sent as it is, the one-byte one included, is
  // reported as a buffer that is too small.
  lemma FallbackRoundTripIff(memory: seq<byte>, ptr: I32, buf: seq<byte>, bytes: seq<byte>, isJson: seq<byte> -> bool)
    requires |buf| == RESULT_BUFFER_CAPACITY && Holds(memory, ptr, FallbackBuffer(buf, bytes))
    ensures var decoded := Decode(memory, ptr, ErrorCode(RESULT_BUFFER_CAPACITY, FallbackMessage(RESULT_BUFFER_CAPACITY, bytes)), isJson);
            if bytes == [] then decoded == Err(Unspecified)
            else if 2 <= |bytes| <= RESULT_BUFFER_CAPACITY then decoded == Err(Message(bytes))
            else decoded == Err(Message(BUFFER_TOO_SMALL))
  {
    if bytes != [] {
      var before := if ErrorCode(|buf|, bytes) != -1 then buf else Fill(buf, bytes);
      ErrorRoundTripIff(memory, ptr, before, FallbackMessage(RESULT_BUFFER_CAPACITY, bytes), isJson);
    }
  }
}

/** One call of the host into an arbitrary guest: allocations, the action, the clean-up. */
module WasmHosting {
  import opened Wrappers
  import opened WasmAbi

  datatype Call =
    | Alloc(len: I32)
    | Dealloc(allocation: Allocation)
    | Invoke(action: Allocation, params: Allocation, result: Allocation)

  // A guest may do anything to its own memory before it returns or traps.
  datatype Reply = Trapped(memory: seq<byte>) | Returned(value: I32, memory: seq<byte>)

  // Its answer may depend on the call, on its memory and on everything that went before.
  type Guest = (Call, seq<byte>, seq<Event>) -> Reply

  // `None` stands for a trap; `memoryLen` is the size of linear memory when the call ended.
  datatype Event = Event(call: Call, result: Option<I32>, memoryLen: nat)

  datatype Machine = Machine(memory: seq<byte>, log: seq<Event>)

  function Enter(g: Guest, m: Machine, call: Call): (Machine, Option<I32>) {
    var reply := g(call, m.memory, m.log);
    var result := if reply.Trapped? then None else Some(reply.value);
    (Machine(reply.memory, m.log + [Event(call, result, |reply.memory|)]), result)
  }

  function AllocateBuffer(g: Guest, m: Machine, len: I32): (Machine, Result<Allocation, WasmError>)
    requires len >= 0
  {
    var (m1, result) := Enter(g, m, Alloc(len));
    if result.None? then (m1, Err(AllocFailed))
    else
      match CheckedRange(|m1.memory|, result.value, len)
      case Err(e) => (m1, Err(e))
      case Ok(_) => (m1, Ok(Allocation(result.value, len)))
  }

  function AllocAndWrite(g: Guest, m: Machine, data: seq<byte>): (Machine, Result<Allocation, WasmError>) {
    if |data| > I32_MAX then (m, Err(InputTooLarge))
    else
      var (m1, r) := AllocateBuffer(g, m, |data|);
      if r.Err? then (m1, r)
      else (m1.(memory := Overwrite(m1.memory, r.value.ptr, data)), r)
  }

  // Newest first; a failure does not stop the rest, and the first one is reported.
  function DeallocateAll(g: Guest, m: Machine, allocations: seq<Allocation>): (Machine, Option<WasmError>)
    decreases |allocations|
  {
    if allocations == [] then (m, None)
    else
      var last := allocations[|allocations| - 1];
      var (m1, result) := Enter(g, m, Dealloc(last));
      var (m2, later) := DeallocateAll(g, m1, allocations[..|allocations| - 1]);
      (m2, if result.None? then Some(DeallocFailed(last)) else later)
  }

  datatype Progress = Progress(machine: Machine, recorded: seq<Allocation>, outcome: Result<seq<byte>, WasmError>)

  function Body(g: Guest, m: Machine, action: seq<byte>, params: seq<byte>, isJson: seq<byte> -> bool): Progress {
    var (m1, a) := AllocAndWrite(g, m, action);
    if a.Err? then Progress(m1, [], Err(a.error))
    else
      var (m2, p) := AllocAndWrite(g, m1, params);
      if p.Err? then Progress(m2, [a.value], Err(p.error))
      else
        var (m3, r) := AllocateBuffer(g, m2, RESULT_BUFFER_CAPACITY);
        if r.Err? then Progress(m3, [a.value, p.value], Err(r.error))
        else
          var (m4, ret) := Enter(g, m3, Invoke(a.value, p.value, r.value));
          Progress(m4, [a.value, p.value, r.value],
            if ret.None? then Err(InvokeTrap) else Decode(m4.memory, r.value.ptr, ret.value, isJson))
  }

  function InvokeAction(g: Guest, m: Machine, action: seq<byte>, params: seq<byte>, isJson: seq<byte> -> bool)
    : (Machine, Result<seq<byte>, WasmError>)
  {
    var body := Body(g, m, action, params, isJson);
    var (after, failure) := DeallocateAll(g, body.machine, body.recorded);
    (after, if body.outcome.Ok? && failure.Some? then Err(failure.value) else body.outcome)
  }

  // ---- Host accesses ----

  // The host writes nothing but its input, into a range of memory the guest granted.
  lemma HostWritesOnlyItsBuffer(g: Guest, m: Machine, data: seq<byte>)
    requires AllocAndWrite(g, m, data).1.Ok?
    ensures var (m1, r) := AllocAndWrite(g, m, data);
            var granted := g(Alloc(|data|), m.memory, m.log);
            && granted.Returned? && r.value == Allocation(granted.value, |data|)
            && 0 <= granted.value && granted.value + |data| <= |granted.memory| == |m1.memory|
            && m1.memory[granted.value..granted.value + |data|] == data
            && (forall i | 0 <= i < |m1.memory| && !(granted.value <= i < granted.value + |data|) ::
                  m1.memory[i] == granted.memory[i])
            && m1.log == m.log + [Event(Alloc(|data|), Some(granted.value), |granted.memory|)]
  {
  }

  // ---- Clean-up ----

  ghost predicate Releases(events: seq<Event>, recorded: seq<Allocation>) {
    && |events| == |recorded|
    && forall i | 0 <= i < |events| :: events[i].call == Dealloc(recorded[|recorded| - 1 - i])
  }

  // `failure` is the first one among the events.
  ghost predicate FirstFailure(events: seq<Event>, failure: Option<WasmError>) {
    if events == [] then failure.None?
    else if events[0].result.None? then events[0].call.Dealloc? && failure == Some(DeallocFailed(events[0].call.allocation))
    else FirstFailure(events[1..], failure)
  }

  lemma {:induction false} NoFailure(events: seq<Event>)
    requires FirstFailure(events, None)
    ensures forall e | e in events :: e.result.Some?
  {
    if events != [] {
      NoFailure(events[1..]);
      assert events == [events[0]] + events[1..];
    }
  }

  lemma {:induction false} FailureNamesAllocation(events: seq<Event>, failure: Option<WasmError>)
    requires FirstFailure(events, failure)
    ensures failure.Some? ==> failure.value.DeallocFailed?
  {
    if events != [] && events[0].result.Some? {
      FailureNamesAllocation(events[1..], failure);
    }
  }

  // Every recorded allocation is released once, newest first, whatever fails on the way; the
  // result is the first failure, if there is one.
  lemma {:induction false} DeallocateAllReleases(g: Guest, m: Machine, recorded: seq<Allocation>) returns (events: seq<Event>)
    ensures DeallocateAll(g, m, recorded).0.log == m.log + events
    ensures Releases(events, recorded)
    ensures FirstFailure(events, DeallocateAll(g, m, recorded).1)
    decreases |recorded|
  {
    if recorded == [] {
      events := [];
    } else {
      var last := recorded[|recorded| - 1];
      var (m1, result) := Enter(g, m, Dealloc(last));
      var rest := DeallocateAllReleases(g, m1, recorded[..|recorded| - 1]);
      var first := Event(Dealloc(last), result, |m1.memory|);
      events := [first] + rest;
      assert m.log + [first] + rest == m.log + events;
      assert forall i | 0 < i < |events| :: events[i] == rest[i - 1];
      assert events[1..] == rest;
    }
  }

  // The requests of one invocation, in order.
  function Requested(action: seq<byte>, params: seq<byte>): seq<nat> {
    [|action|, |params|, RESULT_BUFFER_CAPACITY]
  }

  // An allocation that the guest made where the host asked for it...
  predicate Placed(e: Event) {
    e.call.Alloc? && e.call.len >= 0 && e.result.Some? && CheckedRange(e.memoryLen, e.result.value, e.call.len).Ok?
  }

  // ...and one that it made outside its memory of that moment.
  predicate Stray(e: Event) {
    e.call.Alloc? && e.result.Some? && !Placed(e)
  }

  // What the guest saw before clean-up: each recorded allocation was requested and granted in
  // order, inside memory; the action ran exactly when all three were, and otherwise the next
  // request, if it was made at all, trapped or went astray.
  ghost predicate Accounts(events: seq<Event>, recorded: seq<Allocation>, action: seq<byte>, params: seq<byte>) {
    && |recorded| <= 3
    && |recorded| <= |events| <= |recorded| + 1
    && (forall i | 0 <= i < |recorded| ::
          && recorded[i].len == Requested(action, params)[i]
          && events[i].call == Alloc(recorded[i].len) && events[i].result == Some(recorded[i].ptr) && Placed(events[i]))
    && (|recorded| == 3 ==>
          |events| == 4 && events[3].call == Invoke(recorded[0], recorded[1], recorded[2]))
    && (|recorded| < |events| && |recorded| < 3 ==>
          && Requested(action, params)[|recorded|] <= I32_MAX
          && events[|recorded|].call == Alloc(Requested(action, params)[|recorded|]) && !Placed(events[|recorded|]))
  }

  lemma BodyAccounts(g: Guest, m: Machine, action: seq<byte>, params: seq<byte>, isJson: seq<byte> -> bool)
      returns (events: seq<Event>)
    ensures var body := Body(g, m, action, params, isJson);
            body.machine.log == m.log + events && Accounts(events, body.recorded, action, params)
  {
    hide Decode, Overwrite, AllocateBuffer, AllocAndWrite, Placed;
    var body := Body(g, m, action, params, isJson);
    WriteEvent(g, m, action);
    var (m1, a) := AllocAndWrite(g, m, action);
    if a.Ok? {
      WriteEvent(g, m1, params);
      var (m2, p) := AllocAndWrite(g, m1, params);
      if p.Ok? {
        BufferEvent(g, m2, RESULT_BUFFER_CAPACITY);
        var (m3, r) := AllocateBuffer(g, m2, RESULT_BUFFER_CAPACITY);
      }
    }
    assert m.log <= body.machine.log;
    events := body.machine.log[|m.log|..];
  }

  lemma BufferEvent(g: Guest, m: Machine, len: I32)
    requires len >= 0
    ensures var (m1, r) := AllocateBuffer(g, m, len);
            && |m1.log| == |m.log| + 1 && m.log <= m1.log
            && var e := m1.log[|m.log|];
               && e.call == Alloc(len) && (r.Ok? <==> Placed(e))
               && (r.Ok? ==> e.result == Some(r.value.ptr) && r.value.len == len)
  {
  }

  lemma WriteEvent(g: Guest, m: Machine, data: seq<byte>)
    ensures var (m1, r) := AllocAndWrite(g, m, data);
            if |data| > I32_MAX then m1 == m && r.Err?
            else
              && |m1.log| == |m.log| + 1 && m.log <= m1.log
              && var e := m1.log[|m.log|];
                 && e.call == Alloc(|data|) && (r.Ok? <==> Placed(e))
                 && (r.Ok? ==> e.result == Some(r.value.ptr) && r.value.len == |data|)
  {
    if |data| <= I32_MAX {
      BufferEvent(g, m, |data|);
    }
  }

  // The whole trace of an invocation of an arbitrary guest, on every path: requests, perhaps the
  // action, and one release per recorded allocation, newest first. A result was read from the
  // guest's memory, is at most 256 KiB long, and comes only after every release succeeded.
  lemma InvokeTrace(g: Guest, m: Machine, action: seq<byte>, params: seq<byte>, isJson: seq<byte> -> bool)
      returns (recorded: seq<Allocation>, before: seq<Event>, cleanup: seq<Event>)
    ensures var (after, r) := InvokeAction(g, m, action, params, isJson);
            && after.log == m.log + before + cleanup
            && Accounts(before, recorded, action, params)
            && Releases(cleanup, recorded)
            && (r.Ok? ==>
                  && |recorded| == 3 && before[3].result == Some(|r.value|) && |r.value| <= RESULT_BUFFER_CAPACITY
                  && isJson(r.value) && forall e | e in cleanup :: e.result.Some?)
            && (r.Err? && r.error.Message? ==>
                  && |recorded| == 3 && before[3].result == Some(-|r.error.bytes|)
                  && 2 <= |r.error.bytes| <= RESULT_BUFFER_CAPACITY)
  {
    before := BodyAccounts(g, m, action, params, isJson);
    var body := Body(g, m, action, params, isJson);
    recorded := body.recorded;
    cleanup := DeallocateAllReleases(g, body.machine, recorded);
    BodyOutcome(g, m, action, params, isJson, before);
    hide Body, DeallocateAll, Releases, FirstFailure, Accounts;
    AccountsLengths(before, recorded, action, params);
    FailureNamesAllocation(cleanup, DeallocateAll(g, body.machine, recorded).1);
    if InvokeAction(g, m, action, params, isJson).1.Ok? {
      NoFailure(cleanup);
    }
  }

  lemma AccountsLengths(events: seq<Event>, recorded: seq<Allocation>, action: seq<byte>, params: seq<byte>)
    requires Accounts(events, recorded, action, params)
    ensures |recorded| == 3 ==> |events| == 4
  {
  }

  lemma BodyOutcome(g: Guest, m: Machine, action: seq<byte>, params: seq<byte>, isJson: seq<byte> -> bool, events: seq<Event>)
    requires Body(g, m, action, params, isJson).machine.log == m.log + events
    ensures var body := Body(g, m, action, params, isJson);
            && (body.outcome.Ok? ==>
                  && |body.recorded| == 3 && |events| == 4 && isJson(body.outcome.value)
                  && events[3].result == Some(|body.outcome.value|) && |body.outcome.value| <= RESULT_BUFFER_CAPACITY)
            && (body.outcome.Err? && body.outcome.error.Message? ==>
                  && |body.recorded| == 3 && |events| == 4 && events[3].result == Some(-|body.outcome.error.bytes|)
                  && 2 <= |body.outcome.error.bytes| <= RESULT_BUFFER_CAPACITY)
            && (body.outcome.Err? ==> !body.outcome.error.DeallocFailed?)
  {
    hide Overwrite, Decode;
    var (m1, a) := AllocAndWrite(g, m, action);
    if a.Ok? {
      var (m2, p) := AllocAndWrite(g, m1, params);
      if p.Ok? {
        var (m3, r) := AllocateBuffer(g, m2, RESULT_BUFFER_CAPACITY);
        if r.Ok? {
          var (m4, ret) := Enter(g, m3, Invoke(a.value, p.value, r.value));
          assert m4.log == m.log + events && |m4.log| == |m.log| + 4 && events[3] == m4.log[|m.log| + 3];
          if ret.Some? {
            DecodedLength(m4.memory, r.value.ptr, ret.value, isJson);
          }
        }
      }
    }
  }

  lemma DecodedLength(memory: seq<byte>, resultPtr: I32, ret: I32, isJson: seq<byte> -> bool)
    ensures match Decode(memory, resultPtr, ret, isJson)
            case Ok(bytes) => |bytes| == ret <= RESULT_BUFFER_CAPACITY && isJson(bytes)
            case Err(e) => !e.DeallocFailed? && (e.Message? ==> 2 <= |e.bytes| == -ret <= RESULT_BUFFER_CAPACITY)
  {
    DecodedOutputIsBounded(memory, resultPtr, ret, isJson);
  }

  // What is not cleaned up: an allocation that the guest did make but placed outside its memory
  // is refused before it is recorded, so nobody ever releases it.
  lemma OutOfBoundsGrantIsNeverReleased(g: Guest, m: Machine, action: seq<byte>, params: seq<byte>, isJson: seq<byte> -> bool)
    requires |action| <= I32_MAX
    requires var granted := g(Alloc(|action|), m.memory, m.log);
             granted.Returned? && !(0 <= granted.value && granted.value + |action| <= |granted.memory|)
    ensures var (after, r) := InvokeAction(g, m, action, params, isJson);
            r == Err(OutOfBounds)
            && after.log[|m.log|..] == [Event(Alloc(|action|), Some(g(Alloc(|action|), m.memory, m.log).value),
                                              |g(Alloc(|action|), m.memory, m.log).memory|)]
  {
  }

  // All allocations the guest granted, all that were handed back, and all that went astray.
  function Granted(events: seq<Event>): seq<Allocation> {
    if events == [] then []
    else if events[0].call.Alloc? && events[0].result.Some? then
      [Allocation(events[0].result.value, events[0].call.len)] + Granted(events[1..])
    else Granted(events[1..])
  }

  function Released(events: seq<Event>): seq<Allocation> {
    if events == [] then []
    else if events[0].call.Dealloc? then [events[0].call.allocation] + Released(events[1..])
    else Released(events[1..])
  }

  function Strays(events: seq<Event>): seq<Allocation> {
    if events == [] then []
    else if Stray(events[0]) then [Allocation(events[0].result.value, events[0].call.len)] + Strays(events[1..])
    else Strays(events[1..])
  }

  lemma {:induction false} GrantedAppend(xs: seq<Event>, ys: seq<Event>)
    ensures Granted(xs + ys) == Granted(xs) + Granted(ys)
  {
    if xs == [] {
      assert xs + ys == ys;
    } else {
      assert (xs + ys)[0] == xs[0] && (xs + ys)[1..] == xs[1..] + ys;
      GrantedAppend(xs[1..], ys);
    }
  }

  lemma {:induction false} ReleasedAppend(xs: seq<Event>, ys: seq<Event>)
    ensures Released(xs + ys) == Released(xs) + Released(ys)
  {
    if xs == [] {
      assert xs + ys == ys;
    } else {
      ReleasedAppend(xs[1..], ys);
      assert (xs + ys)[1..] == xs[1..] + ys;
    }
  }

  lemma {:induction false} StraysAppend(xs: seq<Event>, ys: seq<Event>)
    ensures Strays(xs + ys) == Strays(xs) + Strays(ys)
  {
    hide Placed;
    if xs == [] {
      assert xs + ys == ys;
    } else {
      StraysAppend(xs[1..], ys);
      assert (xs + ys)[1..] == xs[1..] + ys;
    }
  }

  lemma TalliesAppend(xs: seq<Event>, ys: seq<Event>)
    ensures Granted(xs + ys) == Granted(xs) + Granted(ys)
    ensures Released(xs + ys) == Released(xs) + Released(ys)
    ensures Strays(xs + ys) == Strays(xs) + Strays(ys)
  {
    hide *;
    GrantedAppend(xs, ys);
    ReleasedAppend(xs, ys);
    StraysAppend(xs, ys);
  }

  lemma {:induction false} RecordedTallies(events: seq<Event>, recorded: seq<Allocation>)
    requires |events| == |recorded|
    requires forall i | 0 <= i < |recorded| ::
               events[i].call == Alloc(recorded[i].len) && events[i].result == Some(recorded[i].ptr) && Placed(events[i])
    ensures Granted(events) == recorded && Released(events) == [] && Strays(events) == []
  {
    hide Placed;
    if events != [] {
      RecordedTallies(events[1..], recorded[1..]);
      assert recorded == [recorded[0]] + recorded[1..];
    }
  }

  lemma {:induction false} NoneGranted(events: seq<Event>)
    requires forall e | e in events :: e.call.Dealloc?
    ensures Granted(events) == [] && Strays(events) == []
  {
    if events != [] {
      assert events[0] in events && forall e | e in events[1..] :: e in events;
      NoneGranted(events[1..]);
    }
  }

  lemma {:induction false} AllReleased(events: seq<Event>, recorded: seq<Allocation>)
    requires Releases(events, recorded)
    ensures multiset(Released(events)) == multiset(recorded)
    decreases |recorded|
  {
    if events != [] {
      var last := |recorded| - 1;
      assert events[0].call == Dealloc(recorded[last]);
      ReleasesTail(events, recorded);
      hide Releases;
      AllReleased(events[1..], recorded[..last]);
      FrontAndBack(Released(events[1..]), recorded);
    } else {
      assert recorded == [];
    }
  }

  lemma ReleasesTail(events: seq<Event>, recorded: seq<Allocation>)
    requires Releases(events, recorded) && events != []
    ensures recorded != [] && Releases(events[1..], recorded[..|recorded| - 1])
  {
  }

  lemma FrontAndBack(released: seq<Allocation>, recorded: seq<Allocation>)
    requires recorded != [] && multiset(released) == multiset(recorded[..|recorded| - 1])
    ensures multiset([recorded[|recorded| - 1]] + released) == multiset(recorded)
  {
    assert recorded == recorded[..|recorded| - 1] + [recorded[|recorded| - 1]];
  }

  lemma ReleasesTally(events: seq<Event>, recorded: seq<Allocation>)
    requires Releases(events, recorded)
    ensures Granted(events) == [] && Strays(events) == []
    ensures multiset(Released(events)) == multiset(recorded)
  {
    AllReleased(events, recorded);
    NoneGranted(events);
  }

  lemma {:induction false} NoStraysIff(events: seq<Event>)
    ensures Strays(events) == [] <==> forall e | e in events :: !Stray(e)
  {
    if events != [] {
      NoStraysIff(events[1..]);
      assert events == [events[0]] + events[1..];
    }
  }

  lemma TailTallies(e: Event)
    ensures !e.call.Alloc? && !e.call.Dealloc? ==> Granted([e]) == Released([e]) == Strays([e]) == []
    ensures e.call.Alloc? && !Placed(e) ==> Released([e]) == [] && Granted([e]) == Strays([e]) && |Strays([e])| <= 1
  {
    assert [e][1..] == [];
  }

  lemma AccountsTally(events: seq<Event>, recorded: seq<Allocation>, action: seq<byte>, params: seq<byte>)
    requires Accounts(events, recorded, action, params)
    ensures Granted(events) == recorded + Strays(events) && Released(events) == [] && |Strays(events)| <= 1
  {
    var k := |recorded|;
    RecordedTallies(events[..k], recorded);
    assert events == events[..k] + events[k..];
    TalliesAppend(events[..k], events[k..]);
    if |events| > k {
      assert events[k..] == [events[k]];
      TailTallies(events[k]);
    } else {
      assert events[k..] == [];
    }
  }

  // Over the trace of any invocation of any guest: what was granted is what is handed back and
  // what went astray, and at most one allocation does. So every granted allocation is handed back,
  // once each, exactly when every pointer returned by the allocator was in bounds at that moment.
  lemma EveryGrantIsReleasedIff(g: Guest, m: Machine, action: seq<byte>, params: seq<byte>, isJson: seq<byte> -> bool)
    ensures var after := InvokeAction(g, m, action, params, isJson).0;
            && m.log <= after.log
            && var trace := after.log[|m.log|..];
               && multiset(Granted(trace)) == multiset(Released(trace)) + multiset(Strays(trace))
               && |Strays(trace)| <= 1
               && (multiset(Granted(trace)) == multiset(Released(trace)) <==> forall e | e in trace :: !Stray(e))
  {
    var recorded, before, cleanup := InvokeTrace(g, m, action, params, isJson);
    hide InvokeAction, Accounts, Releases, Granted, Released, Strays, Stray;
    var after := InvokeAction(g, m, action, params, isJson).0;
    assert after.log == m.log + (before + cleanup);
    var trace := after.log[|m.log|..];
    assert trace == before + cleanup;
    AccountsTally(before, recorded, action, params);
    ReleasesTally(cleanup, recorded);
    TalliesAppend(before, cleanup);
    NoStraysIff(trace);
    if multiset(Granted(trace)) == multiset(Released(trace)) {
      assert multiset(Strays(trace)) == multiset{};
      assert |multiset(Strays(trace))| == |Strays(trace)|;
    }
  }

  // ---- The example guest behind the host ----

  const ECHO: seq<byte> := Bytes("echo")
  const PING: seq<byte> := Bytes("ping")
  const PONG: seq<byte> := Bytes("{\"pong\":true}")

  // `swarm_invoke`: the code returned and the result buffer afterwards.
  function SwarmInvoke(action: seq<byte>, params: seq<byte>, buf: seq<byte>, isUtf8: seq<byte> -> bool): (I32, seq<byte>)
    requires |buf| <= I32_MAX
  {
    if !isUtf8(action) then Report(buf, Bytes("invalid UTF-8 action name"))
    else if action == ECHO then Answer(buf, params)
    else if action == PING then Answer(buf, PONG)
    else Report(buf, Bytes("unknown action: '") + action + Bytes("'"))
  }

  function Report(buf: seq<byte>, message: seq<byte>): (I32, seq<byte>)
    requires |buf| <= I32_MAX
  {
    (ErrorCode(|buf|, FallbackMessage(|buf|, message)), FallbackBuffer(buf, message))
  }

  function Answer(buf: seq<byte>, bytes: seq<byte>): (I32, seq<byte>)
    requires |buf| <= I32_MAX
  {
    if SuccessCode(|buf|, bytes).Some? then (SuccessCode(|buf|, bytes).value, Fill(buf, bytes))
    else (ErrorCode(|buf|, BUFFER_TOO_SMALL), Fill(buf, BUFFER_TOO_SMALL))
  }

  // What a result buffer of the host's size holds after an answer decodes to that answer, or to
  // the complaint that it did not fit.
  lemma AnswerRoundTrip(memory: seq<byte>, ptr: I32, buf: seq<byte>, bytes: seq<byte>, isJson: seq<byte> -> bool)
    requires |buf| == RESULT_BUFFER_CAPACITY && Holds(memory, ptr, Answer(buf, bytes).1) && isJson(bytes)
    ensures Decode(memory, ptr, Answer(buf, bytes).0, isJson) ==
              if |bytes| <= RESULT_BUFFER_CAPACITY then Ok(bytes) else Err(Message(BUFFER_TOO_SMALL))
  {
    hide Decode, Fill, Holds;
    if |bytes| <= RESULT_BUFFER_CAPACITY {
      SuccessRoundTrip(memory, ptr, buf, bytes, isJson);
    } else {
      ErrorRoundTripIff(memory, ptr, buf, BUFFER_TOO_SMALL, isJson);
    }
  }

  predicate InMemory(a: Allocation, memory: seq<byte>) {
    0 <= a.ptr && 0 <= a.len && a.ptr + a.len <= |memory|
  }

  function At(memory: seq<byte>, a: Allocation): seq<byte>
    requires InMemory(a, memory)
  {
    memory[a.ptr..a.ptr + a.len]
  }

  predicate Apart(a: Allocation, b: Allocation) {
    a.ptr + a.len <= b.ptr || b.ptr + b.len <= a.ptr
  }

  predicate Keeps(before: seq<byte>, after: seq<byte>, a: Allocation) {
    InMemory(a, before) ==> InMemory(a, after) && At(after, a) == At(before, a)
  }

  // The guest grants `n` bytes in memory, apart from what it granted before in this run, whose bytes
  // it keeps. What it does to the rest of its memory is its own business.
  predicate Grants(g: Guest, m: Machine, n: nat, kept: seq<Allocation>) {
    && n <= I32_MAX
    && var reply := g(Alloc(n), m.memory, m.log);
       && reply.Returned?
       && InMemory(Allocation(reply.value, n), reply.memory)
       && forall i | 0 <= i < |kept| :: Apart(Allocation(reply.value, n), kept[i]) && Keeps(m.memory, reply.memory, kept[i])
  }

  // The guest answers this call as the example's `swarm_invoke` does, in the result buffer.
  predicate PlaysExample(g: Guest, isUtf8: seq<byte> -> bool, m: Machine, a: Allocation, p: Allocation, r: Allocation) {
    InMemory(a, m.memory) && InMemory(p, m.memory) && InMemory(r, m.memory) ==>
      var (code, buf) := SwarmInvoke(At(m.memory, a), At(m.memory, p), At(m.memory, r), isUtf8);
      var reply := g(Invoke(a, p, r), m.memory, m.log);
      reply.Returned? && reply.value == code && InMemory(r, reply.memory) && At(reply.memory, r) == buf
  }

  // What one invocation of `echo` needs of the guest: three working allocations, the example's
  // action, and a deallocator that returns.
  ghost predicate Serves(g: Guest, isUtf8: seq<byte> -> bool, m: Machine, params: seq<byte>) {
    var (m1, a) := AllocAndWrite(g, m, ECHO);
    var (m2, p) := AllocAndWrite(g, m1, params);
    var (m3, r) := AllocateBuffer(g, m2, RESULT_BUFFER_CAPACITY);
    && Grants(g, m, |ECHO|, [])
    && (a.Ok? ==> Grants(g, m1, |params|, [a.value]))
    && (a.Ok? && p.Ok? ==> Grants(g, m2, RESULT_BUFFER_CAPACITY, [a.value, p.value]))
    && (a.Ok? && p.Ok? && r.Ok? ==> PlaysExample(g, isUtf8, m3, a.value, p.value, r.value))
    && forall d, memory, log :: g(Dealloc(d), memory, log).Returned?
  }

  lemma GrantIsWritten(g: Guest, m: Machine, data: seq<byte>, kept: seq<Allocation>)
    requires Grants(g, m, |data|, kept)
    ensures var (m1, r) := AllocAndWrite(g, m, data);
            && r.Ok? && r.value.len == |data| && InMemory(r.value, m1.memory) && At(m1.memory, r.value) == data
            && forall i | 0 <= i < |kept| :: Keeps(m.memory, m1.memory, kept[i])
  {
    var reply := g(Alloc(|data|), m.memory, m.log);
    var (m1, r) := AllocAndWrite(g, m, data);
    forall i | 0 <= i < |kept| ensures Keeps(m.memory, m1.memory, kept[i]) {
      assert Apart(r.value, kept[i]) && Keeps(m.memory, reply.memory, kept[i]);
      if InMemory(kept[i], m.memory) {
        assert At(m1.memory, kept[i]) == At(reply.memory, kept[i]);
      }
    }
  }

  lemma GrantIsBuffered(g: Guest, m: Machine, kept: seq<Allocation>)
    requires Grants(g, m, RESULT_BUFFER_CAPACITY, kept)
    ensures var (m1, r) := AllocateBuffer(g, m, RESULT_BUFFER_CAPACITY);
            && r.Ok? && r.value.len == RESULT_BUFFER_CAPACITY && InMemory(r.value, m1.memory)
            && forall i | 0 <= i < |kept| :: Keeps(m.memory, m1.memory, kept[i])
  {
  }

  lemma {:induction false} DeallocationsReturn(g: Guest, m: Machine, allocations: seq<Allocation>)
    requires forall d, memory, log :: g(Dealloc(d), memory, log).Returned?
    ensures DeallocateAll(g, m, allocations).1.None?
    decreases |allocations|
  {
    if allocations != [] {
      var last := allocations[|allocations| - 1];
      DeallocationsReturn(g, Enter(g, m, Dealloc(last)).0, allocations[..|allocations| - 1]);
    }
  }

  // From end to end: `echo` brings the parameters back byte for byte, up to the capacity of the
  // result buffer, and says so when they are longer.
  lemma EchoReturnsItsParameters(g: Guest, isUtf8: seq<byte> -> bool, m: Machine, params: seq<byte>, isJson: seq<byte> -> bool)
    requires Serves(g, isUtf8, m, params) && isUtf8(ECHO) && isJson(params)
    ensures InvokeAction(g, m, ECHO, params, isJson).1 ==
              if |params| <= RESULT_BUFFER_CAPACITY then Ok(params) else Err(Message(BUFFER_TOO_SMALL))
  {
    hide Decode, SwarmInvoke, AllocAndWrite, AllocateBuffer, At, InMemory, Grants, PlaysExample, DeallocateAll, Enter;
    var body := Body(g, m, ECHO, params, isJson);
    GrantIsWritten(g, m, ECHO, []);
    var (m1, a) := AllocAndWrite(g, m, ECHO);
    GrantIsWritten(g, m1, params, [a.value]);
    assert Keeps(m1.memory, AllocAndWrite(g, m1, params).0.memory, [a.value][0]);
    var (m2, p) := AllocAndWrite(g, m1, params);
    GrantIsBuffered(g, m2, [a.value, p.value]);
    assert Keeps(m2.memory, AllocateBuffer(g, m2, RESULT_BUFFER_CAPACITY).0.memory, [a.value, p.value][0]);
    assert Keeps(m2.memory, AllocateBuffer(g, m2, RESULT_BUFFER_CAPACITY).0.memory, [a.value, p.value][1]);
    var (m3, r) := AllocateBuffer(g, m2, RESULT_BUFFER_CAPACITY);
    EchoStep(g, isUtf8, m3, a.value, p.value, r.value, params, isJson);
    DeallocationsReturn(g, body.machine, body.recorded);
  }

  lemma EchoStep(g: Guest, isUtf8: seq<byte> -> bool, m: Machine, a: Allocation, p: Allocation, r: Allocation,
                 params: seq<byte>, isJson: seq<byte> -> bool)
    requires PlaysExample(g, isUtf8, m, a, p, r) && isUtf8(ECHO) && isJson(params)
    requires InMemory(a, m.memory) && InMemory(p, m.memory) && InMemory(r, m.memory)
    requires At(m.memory, a) == ECHO && At(m.memory, p) == params && r.len == RESULT_BUFFER_CAPACITY
    ensures var (m4, ret) := Enter(g, m, Invoke(a, p, r));
            ret.Some? && Decode(m4.memory, r.ptr, ret.value, isJson) ==
              if |params| <= RESULT_BUFFER_CAPACITY then Ok(params) else Err(Message(BUFFER_TOO_SMALL))
  {
    hide Decode, Answer, Report;
    var buf := At(m.memory, r);
    var (code, filled) := SwarmInvoke(ECHO, params, buf, isUtf8);
    var reply := g(Invoke(a, p, r), m.memory, m.log);
    assert At(reply.memory, r) == filled && reply.value == code;
    AnswerRoundTrip(reply.memory, r.ptr, buf, params, isJson);
  }

  // What the example answers to every action: the parameters to `echo`, the pong to `ping`, and an
  // error, cut to its buffer's complaint if it does not fit, to whatever it cannot read or does not know.
  lemma EveryActionIsAnswered(memory: seq<byte>, ptr: I32, action: seq<byte>, params: seq<byte>, buf: seq<byte>,
                              isUtf8: seq<byte> -> bool, isJson: seq<byte> -> bool)
    requires |buf| == 262_144
    requires Holds(memory, ptr, SwarmInvoke(action, params, buf, isUtf8).1)
    ensures var decoded := Decode(memory, ptr, SwarmInvoke(action, params, buf, isUtf8).0, isJson);
            if !isUtf8(action) then decoded == Err(Message(Bytes("invalid UTF-8 action name")))
            else if action == Bytes("echo") then
              isJson(params) ==> decoded == if |params| <= 262_144 then Ok(params) else Err(Message(Bytes("Result buffer too small")))
            else if action == Bytes("ping") then
              isJson(Bytes("{\"pong\":true}")) ==> decoded == Ok(Bytes("{\"pong\":true}"))
            else
              var message := Bytes("unknown action: '") + action + Bytes("'");
              decoded == Err(Message(if |message| <= 262_144 then message else Bytes("Result buffer too small")))
  {
    hide Decode, Answer, FallbackMessage, FallbackBuffer, Holds, ErrorCode;
    var unreadable := Bytes("invalid UTF-8 action name");
    var unknown := Bytes("unknown action: '") + action + Bytes("'");
    if !isUtf8(action) {
      FallbackRoundTripIff(memory, ptr, buf, unreadable, isJson);
    } else if action == ECHO {
      if isJson(params) {
        AnswerRoundTrip(memory, ptr, buf, params, isJson);
      }
    } else if action == PING {
      if isJson(PONG) {
        AnswerRoundTrip(memory, ptr, buf, PONG, isJson);
      }
    } else {
      FallbackRoundTripIff(memory, ptr, buf, unknown, isJson);
    }
  }

  // ---- A guest that serves ----

  function Zeros(n: nat): seq<byte> {
    seq(n, _ => 0)
  }

  lemma SwarmInvokeKeepsLength(action: seq<byte>, params: seq<byte>, buf: seq<byte>, isUtf8: seq<byte> -> bool)
    requires |buf| <= I32_MAX
    ensures |SwarmInvoke(action, params, buf, isUtf8).1| == |buf|
  {
  }

  // An allocator that grows memory at its end, up to the greatest address, and the example's action.
  function Bump(isUtf8: seq<byte> -> bool): Guest {
    (call, memory, log) => BumpReply(isUtf8, call, memory)
  }

  function BumpReply(isUtf8: seq<byte> -> bool, call: Call, memory: seq<byte>): Reply {
    match call
    case Alloc(n) =>
      if n >= 0 && |memory| + n <= I32_MAX then Returned(|memory|, memory + Zeros(n)) else Trapped(memory)
    case Dealloc(_) => Returned(0, memory)
    case Invoke(a, p, r) => BumpInvoke(isUtf8, memory, a, p, r)
  }

  function BumpInvoke(isUtf8: seq<byte> -> bool, memory: seq<byte>, a: Allocation, p: Allocation, r: Allocation): Reply {
    if InMemory(a, memory) && InMemory(p, memory) && InMemory(r, memory) then
      var (code, buf) := SwarmInvoke(At(memory, a), At(memory, p), At(memory, r), isUtf8);
      SwarmInvokeKeepsLength(At(memory, a), At(memory, p), At(memory, r), isUtf8);
      Returned(code, Overwrite(memory, r.ptr, buf))
    else Trapped(memory)
  }

  lemma BumpGrants(isUtf8: seq<byte> -> bool, m: Machine, n: nat, kept: seq<Allocation>)
    requires |m.memory| + n <= I32_MAX && forall i | 0 <= i < |kept| :: InMemory(kept[i], m.memory)
    ensures Grants(Bump(isUtf8), m, n, kept)
    ensures |Bump(isUtf8)(Alloc(n), m.memory, m.log).memory| == |m.memory| + n
  {
  }

  lemma BumpPlays(isUtf8: seq<byte> -> bool, m: Machine, a: Allocation, p: Allocation, r: Allocation)
    ensures PlaysExample(Bump(isUtf8), isUtf8, m, a, p, r)
  {
    if InMemory(a, m.memory) && InMemory(p, m.memory) && InMemory(r, m.memory) {
      SwarmInvokeKeepsLength(At(m.memory, a), At(m.memory, p), At(m.memory, r), isUtf8);
    }
  }

  lemma WrittenLength(g: Guest, m: Machine, data: seq<byte>)
    requires |data| <= I32_MAX
    ensures |AllocAndWrite(g, m, data).0.memory| == |g(Alloc(|data|), m.memory, m.log).memory|
  {
  }

  // It serves every invocation that leaves room for the three allocations.
  lemma BumpServes(isUtf8: seq<byte> -> bool, m: Machine, params: seq<byte>)
    requires |m.memory| + |ECHO| + |params| + RESULT_BUFFER_CAPACITY <= I32_MAX
    ensures Serves(Bump(isUtf8), isUtf8, m, params)
  {
    hide Bump, Grants, PlaysExample, AllocAndWrite, AllocateBuffer, At;
    var g := Bump(isUtf8);
    BumpGrants(isUtf8, m, |ECHO|, []);
    GrantIsWritten(g, m, ECHO, []);
    WrittenLength(g, m, ECHO);
    var (m1, a) := AllocAndWrite(g, m, ECHO);
    BumpGrants(isUtf8, m1, |params|, [a.value]);
    GrantIsWritten(g, m1, params, [a.value]);
    WrittenLength(g, m1, params);
    assert Keeps(m1.memory, AllocAndWrite(g, m1, params).0.memory, [a.value][0]);
    var (m2, p) := AllocAndWrite(g, m1, params);
    BumpGrants(isUtf8, m2, RESULT_BUFFER_CAPACITY, [a.value, p.value]);
    GrantIsBuffered(g, m2, [a.value, p.value]);
    var (m3, r) := AllocateBuffer(g, m2, RESULT_BUFFER_CAPACITY);
    BumpPlays(isUtf8, m3, a.value, p.value, r.value);
    BumpDeallocates(isUtf8);
  }

  lemma BumpDeallocates(isUtf8: seq<byte> -> bool)
    ensures forall d, memory, log :: Bump(isUtf8)(Dealloc(d), memory, log).Returned?
  {
  }

  // So for this guest the round trip holds outright.
  lemma BumpEchoes(isUtf8: seq<byte> -> bool, m: Machine, params: seq<byte>, isJson: seq<byte> -> bool)
    requires |m.memory| + |ECHO| + |params| + RESULT_BUFFER_CAPACITY <= I32_MAX && isUtf8(ECHO) && isJson(params)
    ensures InvokeAction(Bump(isUtf8), m, ECHO, params, isJson).1 ==
              if |params| <= 262_144 then Ok(params) else Err(Message(BUFFER_TOO_SMALL))
  {
    assert RESULT_BUFFER_CAPACITY == 262_144;
    hide *;
    BumpServes(isUtf8, m, params);
    EchoReturnsItsParameters(Bump(isUtf8), isUtf8, m, params, isJson);
  }
}

/** The runtime as it is driven: linear memory and the record of calls, changed in place. */
module WasmRuntimes {
  import opened Wrappers
  import opened WasmAbi
  import opened WasmHosting

  class WasmRuntime {
    const guest: Guest
    var memory: seq<byte>
    var log: seq<Event>

    constructor (guest: Guest, memory: seq<byte>)
      ensures this.guest == guest && Value() == Machine(memory, [])
    {
      this.guest, this.memory, log := guest, memory, [];
    }

    ghost function Value(): Machine
      reads this
    {
      Machine(memory, log)
    }

    method Enter(call: Call) returns (result: Option<I32>)
      modifies this
      ensures (Value(), result) == WasmHosting.Enter(guest, old(Value()), call)
    {
      var reply := guest(call, memory, log);
      result := if reply.Trapped? then None else Some(reply.value);
      memory, log := reply.memory, log + [Event(call, result, |reply.memory|)];
    }

    method AllocateBuffer(len: I32) returns (r: Result<Allocation, WasmError>)
      requires len >= 0
      modifies this
      ensures (Value(), r) == WasmHosting.AllocateBuffer(guest, old(Value()), len)
    {
      var ptr := Enter(Alloc(len));
      if ptr.None? {
        return Err(AllocFailed);
      }
      var range := CheckedRange(|memory|, ptr.value, len);
      if range.Err? {
        return Err(range.error);
      }
      return Ok(Allocation(ptr.value, len));
    }

    method AllocAndWrite(data: seq<byte>) returns (r: Result<Allocation, WasmError>)
      modifies this
      ensures (Value(), r) == WasmHosting.AllocAndWrite(guest, old(Value()), data)
    {
      hide CheckedRange, WasmHosting.Enter;
      if |data| > I32_MAX {
        return Err(InputTooLarge);
      }
      r := AllocateBuffer(|data|);
      if r.Ok? {
        GrantIsInMemory(guest, old(Value()), |data|);
        memory := Overwrite(memory, r.value.ptr, data);
      }
    }

    method DeallocateAll(allocations: seq<Allocation>) returns (failure: Option<WasmError>)
      modifies this
      ensures (Value(), failure) == WasmHosting.DeallocateAll(guest, old(Value()), allocations)
    {
      hide WasmHosting.Enter;
      failure := None;
      assert allocations[..|allocations|] == allocations;
      var i := |allocations|;
      while i > 0
        invariant 0 <= i <= |allocations|
        invariant var (m, later) := WasmHosting.DeallocateAll(guest, Value(), allocations[..i]);
                  WasmHosting.DeallocateAll(guest, old(Value()), allocations) == (m, if failure.Some? then failure else later)
      {
        i := i - 1;
        assert allocations[..i + 1][..i] == allocations[..i];
        var result := Enter(Dealloc(allocations[i]));
        if result.None? && failure.None? {
          failure := Some(DeallocFailed(allocations[i]));
        }
      }
    }

    // The closure of `invoke`, with the allocations it recorded.
    method Run(action: seq<byte>, params: seq<byte>, isJson: seq<byte> -> bool)
        returns (recorded: seq<Allocation>, outcome: Result<seq<byte>, WasmError>)
      modifies this
      ensures Progress(Value(), recorded, outcome) == Body(guest, old(Value()), action, params, isJson)
    {
      hide WasmHosting.Enter, WasmHosting.AllocAndWrite, WasmHosting.AllocateBuffer, Decode;
      var a := AllocAndWrite(action);
      if a.Err? {
        return [], Err(a.error);
      }
      var p := AllocAndWrite(params);
      if p.Err? {
        return [a.value], Err(p.error);
      }
      var r := AllocateBuffer(RESULT_BUFFER_CAPACITY);
      if r.Err? {
        return [a.value, p.value], Err(r.error);
      }
      var ret := Enter(Invoke(a.value, p.value, r.value));
      recorded := [a.value, p.value, r.value];
      if ret.None? {
        return recorded, Err(InvokeTrap);
      }
      return recorded, Decode(memory, r.value.ptr, ret.value, isJson);
    }

    method InvokeAction(action: seq<byte>, params: seq<byte>, isJson: seq<byte> -> bool)
        returns (r: Result<seq<byte>, WasmError>)
      modifies this
      ensures (Value(), r) == WasmHosting.InvokeAction(guest, old(Value()), action, params, isJson)
    {
      hide Body, WasmHosting.DeallocateAll;
      var recorded, outcome := Run(action, params, isJson);
      var failure := DeallocateAll(recorded);
      r := if outcome.Ok? && failure.Some? then Err(failure.value) else outcome;
    }
  }

  lemma GrantIsInMemory(g: Guest, m: Machine, len: I32)
    requires len >= 0 && WasmHosting.AllocateBuffer(g, m, len).1.Ok?
    ensures var (m1, r) := WasmHosting.AllocateBuffer(g, m, len); 0 <= r.value.ptr && r.value.ptr + len <= |m1.memory|
  {
  }
}
