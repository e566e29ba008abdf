/**
 The dispatcher's calls to a client, buffered until the objects they name are ready, and handed to
 the client in the order they arrived.  Observer, approver and handler adaptors share this shape.
 */
module InvocationBuffer {
  import opened Handles

  /** The operation that makes a call's objects ready; each call has its own. */
  type Operation = nat

  /** A call and its operation, until that finished; a failed operation leaves an error name. */
  datatype Invocation = Invocation(call: nat, readyOp: Option<Operation>, error: string)

  /** What became of a call: the client was invoked, or an error was sent back. */
  datatype Outcome = Invoked | Refused(error: string)

  datatype Processed = Processed(call: nat, outcome: Outcome)

  datatype Buffer = Buffer(
    invocations: seq<Invocation>,
    arrived: nat,                     // calls are numbered as they arrive
    results: map<Operation, string>,  // finished operations, with their error names
    processed: seq<Processed>)

  const EMPTY_BUFFER := Buffer([], 0, map[], [])

  /** The operation of the n-th call is the n-th operation. */
  function Arrive(b: Buffer): Buffer {
    b.(invocations := b.invocations + [Invocation(b.arrived, Some(b.arrived), "")], arrived := b.arrived + 1)
  }

  function Finish(i: Invocation, error: string): Invocation {
    i.(readyOp := None, error := error)
  }

  /** Mark the first invocation waiting for the operation. */
  function Mark(s: seq<Invocation>, op: Operation, error: string): seq<Invocation> {
    if s == [] then [] else
      if s[0].readyOp == Some(op) then [Finish(s[0], error)] + s[1..] else [s[0]] + Mark(s[1..], op, error)
  }

  function OutcomeOf(error: string): Outcome {
    if error != "" then Refused(error) else Invoked
  }

  /** Hand over invocations from the front until one still waits. */
  function Drain(b: Buffer): Buffer
    decreases |b.invocations|
  {
    if b.invocations == [] || b.invocations[0].readyOp.Some? then b
    else
      var i := b.invocations[0];
      Drain(b.(invocations := b.invocations[1..], processed := b.processed + [Processed(i.call, OutcomeOf(i.error))]))
  }

  /** An operation finished; the error name is empty exactly if it succeeded. */
  function AfterFinish(b: Buffer, op: Operation, error: string): Buffer {
    Drain(b.(invocations := Mark(b.invocations, op, error), results := b.results[op := error]))
  }

  datatype Event = Called | Finished(op: Operation, error: string)

  /** Every operation finishes at most once. */
  predicate Enabled(b: Buffer, e: Event) {
    e.Finished? ==> e.op < b.arrived && e.op !in b.results
  }

  function Step(b: Buffer, e: Event): Buffer {
    match e
    case Called => Arrive(b)
    case Finished(op, error) => AfterFinish(b, op, error)
  }

  ghost predicate IsRun(run: seq<Buffer>, events: seq<Event>) {
    && |run| == |events| + 1
    && run[0] == EMPTY_BUFFER
    && forall i :: 0 <= i < |events| ==> Enabled(run[i], events[i]) && run[i + 1] == Step(run[i], events[i])
  }

  // ---------------------------------------------------------------- what every event keeps

  /** The calls processed, followed by the calls buffered, are the calls in the order they came. */
  predicate InOrder(b: Buffer) {
    && |b.processed| + |b.invocations| == b.arrived
    && (forall i :: 0 <= i < |b.processed| ==> b.processed[i].call == i)
    && (forall i :: 0 <= i < |b.invocations| ==> b.invocations[i].call == |b.processed| + i)
  }

  /** Processed calls had their operation finish, and its result decided what became of them. */
  predicate Decided(b: Buffer) {
    forall i :: 0 <= i < |b.processed| ==> i in b.results && b.processed[i].outcome == OutcomeOf(b.results[i])
  }

  /** A buffered call waits exactly while its operation has not finished. */
  predicate Waits(b: Buffer) {
    && (forall i :: 0 <= i < |b.invocations| ==>
          var call := |b.processed| + i;
          if call in b.results then b.invocations[i].readyOp == None && b.invocations[i].error == b.results[call]
          else b.invocations[i].readyOp == Some(call))
    && (forall op :: op in b.results ==> op < b.arrived)
  }

  /** Everything but the front of the buffer being up to date. */
  predicate Sound(b: Buffer) {
    InOrder(b) && Decided(b) && Waits(b)
  }

  predicate Inv(b: Buffer) {
    && Sound(b)
    && (b.invocations != [] ==> b.invocations[0].readyOp.Some?)
  }

  lemma {:induction false} MarkIs(s: seq<Invocation>, op: Operation, error: string, at: nat)
    requires at < |s| && s[at].readyOp == Some(op)
    requires forall i :: 0 <= i < |s| && i != at ==> s[i].readyOp != Some(op)
    ensures Mark(s, op, error) == s[at := Finish(s[at], error)]
    decreases |s|
  {
    if at == 0 {
      assert s == [s[0]] + s[1..];
    } else {
      MarkIs(s[1..], op, error, at - 1);
      assert s == [s[0]] + s[1..];
    }
  }

  lemma MarkKeeps(b: Buffer, op: Operation, error: string)
    requires Sound(b) && op < b.arrived && op !in b.results
    ensures |b.processed| <= op && b.invocations != []
    ensures Sound(b.(invocations := Mark(b.invocations, op, error), results := b.results[op := error]))
  {
    assert |b.processed| <= op;
    MarkIs(b.invocations, op, error, op - |b.processed|);
  }

  lemma {:induction false} DrainSettles(b: Buffer)
    requires Sound(b)
    ensures Inv(Drain(b))
    ensures Drain(b).arrived == b.arrived && Drain(b).results == b.results && b.processed <= Drain(b).processed
    decreases |b.invocations|
  {
    if b.invocations != [] && b.invocations[0].readyOp.None? {
      var i := b.invocations[0];
      var n := b.(invocations := b.invocations[1..],
                  processed := b.processed + [Processed(i.call, OutcomeOf(i.error))]);
      assert Sound(n);
      DrainSettles(n);
    }
  }

  lemma StepKeeps(b: Buffer, e: Event)
    requires Inv(b) && Enabled(b, e)
    ensures Inv(Step(b, e)) && b.processed <= Step(b, e).processed
  {
    match e
    case Called =>
    case Finished(op, error) =>
      MarkKeeps(b, op, error);
      hide Sound;
      DrainSettles(b.(invocations := Mark(b.invocations, op, error), results := b.results[op := error]));
  }

  lemma {:induction false} RunKeeps(run: seq<Buffer>, events: seq<Event>, i: nat)
    requires IsRun(run, events) && i < |run|
    ensures Inv(run[i])
  {
    if i > 0 {
      RunKeeps(run, events, i - 1);
      StepKeeps(run[i - 1], events[i - 1]);
    }
  }

  // ---------------------------------------------------------------- the calls as they happened

  function Calls(events: seq<Event>): nat
    decreases |events|
  {
    if events == [] then 0
    else Calls(events[..|events| - 1]) + if events[|events| - 1].Called? then 1 else 0
  }

  /** The error an operation finished with, empty if it succeeded; none while it has not finished. */
  function ErrorOf(events: seq<Event>, op: Operation): Option<string>
    decreases |events|
  {
    if events == [] then None else
      var last := events[|events| - 1];
      if last.Finished? && last.op == op then Some(last.error) else ErrorOf(events[..|events| - 1], op)
  }

  lemma {:induction false} BufferKnows(run: seq<Buffer>, events: seq<Event>, i: nat, op: Operation)
    requires IsRun(run, events) && i <= |events|
    ensures run[i].arrived == Calls(events[..i])
    ensures ErrorOf(events[..i], op) == if op in run[i].results then Some(run[i].results[op]) else None
  {
    if i > 0 {
      BufferKnows(run, events, i - 1, op);
      assert events[..i][..i - 1] == events[..i - 1];
      StepRecords(run[i - 1], events[i - 1]);
    }
  }

  lemma StepRecords(b: Buffer, e: Event)
    ensures Step(b, e).arrived == b.arrived + if e.Called? then 1 else 0
    ensures Step(b, e).results == if e.Finished? then b.results[e.op := e.error] else b.results
  {
    if e.Finished? {
      DrainFrame(b.(invocations := Mark(b.invocations, e.op, e.error), results := b.results[e.op := e.error]));
    }
  }

  lemma {:induction false} DrainFrame(b: Buffer)
    ensures Drain(b).arrived == b.arrived && Drain(b).results == b.results
    decreases |b.invocations|
  {
    if b.invocations != [] && b.invocations[0].readyOp.None? {
      var i := b.invocations[0];
      DrainFrame(b.(invocations := b.invocations[1..],
                    processed := b.processed + [Processed(i.call, OutcomeOf(i.error))]));
    }
  }

  /** The calls processed are the longest prefix of the calls that came whose operations have all
      finished, each once and in order; a client is invoked for exactly those whose operation
      succeeded, and the error is sent back for the others. */
  lemma LongestFinishedPrefix(run: seq<Buffer>, events: seq<Event>, i: nat)
    requires IsRun(run, events) && i <= |events|
    ensures var done := run[i].processed;
            && |done| <= Calls(events[..i])
            && (|done| < Calls(events[..i]) ==> ErrorOf(events[..i], |done|).None?)
            && (forall call :: 0 <= call < |done| ==>
                  && ErrorOf(events[..i], call).Some?
                  && done[call] == Processed(call, if ErrorOf(events[..i], call).value == "" then Invoked
                                                   else Refused(ErrorOf(events[..i], call).value)))
  {
    RunKeeps(run, events, i);
    var done := run[i].processed;
    BufferKnows(run, events, i, |done|);
    forall call | 0 <= call < |done|
      ensures ErrorOf(events[..i], call) == Some(run[i].results[call])
    {
      BufferKnows(run, events, i, call);
    }
  }

  /** Whatever the order of finishing, once all operations have finished every call is processed. */
  lemma NothingStaysBehind(run: seq<Buffer>, events: seq<Event>, i: nat)
    requires IsRun(run, events) && i <= |events|
    requires forall op :: 0 <= op < Calls(events[..i]) ==> ErrorOf(events[..i], op).Some?
    ensures run[i].invocations == [] && |run[i].processed| == Calls(events[..i])
  {
    LongestFinishedPrefix(run, events, i);
    RunKeeps(run, events, i);
    BufferKnows(run, events, i, 0);
  }

  // ---------------------------------------------------------------- the object

  class ClientAdaptor {
    var invocations: seq<Invocation>

    ghost var arrived: nat
    ghost var results: map<Operation, string>
    ghost var processed: seq<Processed>

    ghost function State(): Buffer
      reads this
    {
      Buffer(invocations, arrived, results, processed)
    }

    constructor ()
      ensures State() == EMPTY_BUFFER
    {
      invocations, arrived, results, processed := [], 0, map[], [];
    }

    /** What every adaptor method ends with, once the call's objects are being made ready. */
    method Enqueue(op: Operation)
      requires op == arrived
      modifies this
      ensures State() == Arrive(old(State()))
    {
      invocations := invocations + [Invocation(op, Some(op), "")];
      arrived := arrived + 1;
    }

    method OnReadyOpFinished(op: Operation, error: string)
      requires Inv(State()) && op < arrived && op !in results
      modifies this
      ensures State() == AfterFinish(old(State()), op, error)
    {
      MarkKeeps(State(), op, error);
      assert invocations != [];
      MarkOne(op, error);
      results := results[op := error];
      ghost var b := State();
      while invocations != [] && invocations[0].readyOp.None?
        invariant Drain(State()) == Drain(b)
        decreases |invocations|
      {
        var invocation := invocations[0];
        invocations := invocations[1..];
        if invocation.error != "" {
          processed := processed + [Processed(invocation.call, Refused(invocation.error))];
          continue;
        }
        processed := processed + [Processed(invocation.call, Invoked)];
      }
    }

    /** The loop that looks for the invocation waiting for the operation. */
    method MarkOne(op: Operation, error: string)
      modifies `invocations
      ensures invocations == Mark(old(invocations), op, error)
    {
      var i := 0;
      while i < |invocations|
        invariant i <= |invocations| && invocations == old(invocations)
        invariant Mark(invocations, op, error) == invocations[..i] + Mark(invocations[i..], op, error)
      {
        if invocations[i].readyOp == Some(op) {
          invocations := invocations[i := Finish(invocations[i], error)];
          break;
        }
        i := i + 1;
      }
    }
  }
}
