/**
 The event publisher of src/events/publisher.js as turns of the event loop. A drain runs up to its next await in
 one turn; timeouts, acknowledgements, late deliveries, timers and new events come in any order.
 */
module Publisher {
  import opened Wrappers

  /** An event is known by the position at which it was noted; only its validity matters here. */
  datatype Event = Event(valid: bool)

  datatype State = State(
    noted: seq<Event>,
    head: nat,             // events already shifted off the queue
    draining: bool,        // a drain is awaiting publishOne for the head
    failed: bool,
    armed: bool,           // a retry timer is set
    tried: seq<nat>,       // events handed to the transport, one entry for each attempt
    bus: seq<nat>)         // messages the bus has durably accepted, in order

  function Start(): State {
    State([], 0, false, false, false, [], [])
  }

  datatype Step =
    | Note(event: Event)
    | Deliver(which: nat)                        // the bus accepts a copy, however late
    | Settle(ok: bool, callbackThrows: bool)     // publishOne returns to the drain
    | Retry                                      // the timer fires

  predicate Pending(s: State) {
    s.head < |s.noted|
  }

  /** The drain loop from its test to the next await, or to its end. */
  function Loop(s: State): State {
    if s.head < |s.noted| then
      s.(draining := true, tried := if s.noted[s.head].valid then s.tried + [s.head] else s.tried)
    else s.(draining := false, failed := false)
  }

  predicate Enabled(s: State, step: Step) {
    match step
    case Note(_) => true
    case Deliver(i) => i in s.tried
    case Settle(ok, _) =>
      // an invalid event is dropped and counts as done; the transport resolves only once the bus has the message
      s.draining && s.head < |s.noted| &&
      (if !s.noted[s.head].valid then ok else ok ==> s.head in s.bus)
    case Retry => s.armed
  }

  function Next(s: State, step: Step): State
    requires Enabled(s, step)
  {
    match step
    case Note(e) =>
      var s' := s.(noted := s.noted + [e]);
      if s.draining then s' else Loop(s')
    case Deliver(i) => s.(bus := s.bus + [i])
    case Settle(ok, throws) =>
      if ok then Loop(s.(head := s.head + 1))
      else s.(draining := false, failed := true, armed := s.armed || !throws)
    case Retry =>
      var s' := s.(armed := false);
      if s'.head < |s'.noted| && !s'.draining then Loop(s') else s'
  }

  ghost predicate Run(states: seq<State>, steps: seq<Step>) {
    && |states| == |steps| + 1 && states[0] == Start()
    && forall i | 0 <= i < |steps| :: Enabled(states[i], steps[i]) && states[i + 1] == Next(states[i], steps[i])
  }

  // ---------- the object ----------

  class Queue {
    var pending: seq<Event>
    var draining: bool
    var failed: bool
    var armed: bool
    ghost var noted: seq<Event>
    ghost var tried: seq<nat>
    ghost var bus: seq<nat>

    ghost predicate Valid()
      reads this
    {
      |pending| <= |noted| && pending == noted[|noted| - |pending|..]
    }

    ghost function Value(): State
      requires Valid()
      reads this
    {
      State(noted, |noted| - |pending|, draining, failed, armed, tried, bus)
    }

    constructor ()
      ensures Valid() && Value() == Start()
    {
      pending, draining, failed, armed := [], false, false, false;
      noted, tried, bus := [], [], [];
    }

    method Note(e: Event)
      requires Valid()
      modifies this
      ensures Valid() && Value() == Next(old(Value()), Step.Note(e))
    {
      pending := pending + [e];
      noted := noted + [e];
      if !draining {
        Drain();
      }
    }

    /** One pass of the loop: on to the next await, or out. */
    method Drain()
      requires Valid()
      modifies this
      ensures Valid() && Value() == Loop(old(Value()))
    {
      draining := true;
      if |pending| > 0 {
        ghost var head := |noted| - |pending|;
        if pending[0].valid {
          tried := tried + [head];
        }
      } else {
        failed := false;
        draining := false;
      }
    }

    /** publishOne has returned. */
    method Resume(ok: bool, callbackThrows: bool)
      requires Valid() && Enabled(Value(), Settle(ok, callbackThrows))
      modifies this
      ensures Valid() && Value() == Next(old(Value()), Settle(ok, callbackThrows))
    {
      if !ok {
        failed := true;
        if !callbackThrows {
          armed := true;
        }
        draining := false;
        return;
      }
      pending := pending[1..];
      assert pending == noted[|noted| - |pending|..];
      hide Loop;
      Drain();
    }

    method RetryFires()
      requires Valid() && armed
      modifies this
      ensures Valid() && Value() == Next(old(Value()), Step.Retry)
    {
      armed := false;
      if |pending| > 0 && !draining {
        Drain();
      }
    }
  }

  // ---------- order ----------

  /** Each message's first copy, in order of arrival. */
  function Firsts(bus: seq<nat>): seq<nat> {
    if bus == [] then []
    else
      var before, last := Firsts(bus[..|bus| - 1]), bus[|bus| - 1];
      if last in bus[..|bus| - 1] then before else before + [last]
  }

  /** The valid ones among the first n events, in the order they were noted. */
  function ValidOnes(noted: seq<Event>, n: nat): seq<nat>
    requires n <= |noted|
  {
    if n == 0 then []
    else ValidOnes(noted, n - 1) + if noted[n - 1].valid then [n - 1] else []
  }

  /** How many events have been dealt with on the bus: all before the head, and the head once a copy of it has arrived. */
  function Reach(s: State): nat {
    if s.head in s.bus then s.head + 1 else s.head
  }

  ghost predicate Inv(s: State) {
    && s.head <= |s.noted|
    && (forall i | i in s.tried :: i <= s.head && i < |s.noted| && s.noted[i].valid)
    && (forall i | i in s.bus :: i in s.tried)
    && (s.draining ==> s.head < |s.noted| && (s.noted[s.head].valid ==> s.head in s.tried))
    && (s.failed ==> s.head < |s.noted|)
    && (forall i | 0 <= i < s.head && s.noted[i].valid :: i in s.bus)
    && Firsts(s.bus) == ValidOnes(s.noted, Reach(s))
  }

  lemma {:induction false} MoreNoted(noted: seq<Event>, e: Event, n: nat)
    requires n <= |noted|
    ensures ValidOnes(noted + [e], n) == ValidOnes(noted, n)
  {
    if n > 0 {
      MoreNoted(noted, e, n - 1);
    }
  }

  lemma FirstsMore(bus: seq<nat>, i: nat)
    ensures Firsts(bus + [i]) == if i in bus then Firsts(bus) else Firsts(bus) + [i]
  {
    assert (bus + [i])[..|bus|] == bus;
  }

  lemma LoopKeepsInv(s: State)
    requires Inv(s)
    ensures Inv(Loop(s))
  {
  }

  lemma NoteKeepsInv(s: State, e: Event)
    requires Inv(s)
    ensures Inv(s.(noted := s.noted + [e]))
  {
    assert forall i | 0 <= i < |s.noted| :: (s.noted + [e])[i] == s.noted[i];
    ReachBound(s);
    MoreNoted(s.noted, e, Reach(s));
    hide Firsts, ValidOnes;
  }

  lemma ReachBound(s: State)
    requires Inv(s)
    ensures Reach(s) <= |s.noted|
  {
    hide Firsts, ValidOnes;
  }

  lemma DeliverKeepsInv(s: State, i: nat)
    requires Inv(s) && i in s.tried
    ensures Inv(s.(bus := s.bus + [i]))
  {
    FirstsMore(s.bus, i);
    var s' := s.(bus := s.bus + [i]);
    if i in s.bus {
      assert Reach(s') == Reach(s);
    } else {
      assert i == s.head;
      assert ValidOnes(s.noted, s.head + 1) == ValidOnes(s.noted, s.head) + [s.head];
    }
    hide Firsts, ValidOnes;
  }

  lemma StepKeepsInv(s: State, step: Step)
    requires Inv(s) && Enabled(s, step)
    ensures Inv(Next(s, step))
  {
    hide Inv, Loop;
    match step
    case Note(e) =>
      NoteKeepsInv(s, e);
      LoopKeepsInv(s.(noted := s.noted + [e]));
    case Deliver(i) =>
      DeliverKeepsInv(s, i);
    case Settle(ok, throws) =>
      if ok {
        Advance(s);
      } else {
        FailKeepsInv(s, throws);
      }
    case Retry =>
      RetryKeepsInv(s);
      LoopKeepsInv(s.(armed := false));
  }

  lemma FailKeepsInv(s: State, throws: bool)
    requires Inv(s) && s.draining
    ensures Inv(s.(draining := false, failed := true, armed := s.armed || !throws))
  {
    hide Firsts, ValidOnes;
  }

  lemma RetryKeepsInv(s: State)
    requires Inv(s)
    ensures Inv(s.(armed := false))
  {
    hide Firsts, ValidOnes;
  }

  lemma Advance(s: State)
    requires Inv(s) && s.draining && (s.noted[s.head].valid ==> s.head in s.bus)
    ensures Inv(Loop(s.(head := s.head + 1)))
  {
    var shifted := s.(head := s.head + 1, draining := false, failed := s.failed && s.head + 1 < |s.noted|);
    ShiftKeepsInv(s);
    LoopKeepsInv(shifted);
    hide Inv;
    assert Loop(s.(head := s.head + 1)) == Loop(shifted);
  }

  lemma ShiftKeepsInv(s: State)
    requires Inv(s) && s.draining && (s.noted[s.head].valid ==> s.head in s.bus)
    ensures Inv(s.(head := s.head + 1, draining := false, failed := s.failed && s.head + 1 < |s.noted|))
  {
    hide Firsts;
    assert s.head + 1 !in s.bus;
    assert ValidOnes(s.noted, s.head + 1) == ValidOnes(s.noted, s.head) + if s.noted[s.head].valid then [s.head] else [];
  }

  /** In every state of every run the first copies on the bus are the valid events noted first, in note order. */
  lemma {:induction false} FirstCopiesInOrder(states: seq<State>, steps: seq<Step>, i: nat)
    requires Run(states, steps) && i < |states|
    ensures Inv(states[i])
    ensures Firsts(states[i].bus) == ValidOnes(states[i].noted, Reach(states[i]))
  {
    if i > 0 {
      FirstCopiesInOrder(states, steps, i - 1);
      StepKeepsInv(states[i - 1], steps[i - 1]);
    }
  }

  // ---------- progress ----------

  predicate Live(s: State) {
    Pending(s) ==> s.draining || s.armed
  }

  /** No turn but one leaves a non-empty queue unattended: a failed publish whose callback throws before the timer is set. */
  lemma StaysLiveIff(s: State, step: Step)
    requires Inv(s) && Enabled(s, step) && Live(s)
    ensures Live(Next(s, step)) <==> !(step.Settle? && !step.ok && step.callbackThrows && !s.armed)
  {
  }

  predicate Calm(step: Step) {
    step.Settle? ==> !step.callbackThrows
  }

  /** In every run whose failure callback returns, a non-empty queue always has a drain running or a retry armed. */
  lemma {:induction false} AlwaysLive(states: seq<State>, steps: seq<Step>, i: nat)
    requires Run(states, steps) && i < |states| && forall k | 0 <= k < i :: Calm(steps[k])
    ensures Live(states[i])
  {
    if i > 0 {
      AlwaysLive(states, steps, i - 1);
      FirstCopiesInOrder(states, steps, i - 1);
      assert Calm(steps[i - 1]);
      StaysLiveIff(states[i - 1], steps[i - 1]);
    }
  }

  // ---------- what the counters mean ----------

  ghost function Settled(steps: seq<Step>, i: nat): nat
    requires i <= |steps|
  {
    if i == 0 then 0 else Settled(steps, i - 1) + One(steps[i - 1].Settle? && steps[i - 1].ok)
  }

  /** A publish failed at step k, and the queue has not been empty since. */
  ghost predicate FailedAt(states: seq<State>, steps: seq<Step>, k: nat, i: nat)
    requires k < i <= |steps| < |states|
  {
    steps[k].Settle? && !steps[k].ok && forall j | k < j <= i :: Pending(states[j])
  }

  ghost predicate FailedSince(states: seq<State>, steps: seq<Step>, i: nat)
    requires i <= |steps| < |states|
  {
    exists k | 0 <= k < i :: FailedAt(states, steps, k, i)
  }

  /** A failed publish at step k set the timer, and it has not fired since. */
  ghost predicate ArmedAt(steps: seq<Step>, k: nat, i: nat)
    requires k < i <= |steps|
  {
    steps[k].Settle? && !steps[k].ok && !steps[k].callbackThrows && forall j | k < j < i :: !steps[j].Retry?
  }

  ghost predicate ArmedSince(steps: seq<Step>, i: nat)
    requires i <= |steps|
  {
    exists k | 0 <= k < i :: ArmedAt(steps, k, i)
  }

  /** Whether the event at the head is with the transport. */
  ghost predicate InFlight(s: State) {
    s.draining && s.head < |s.noted| && s.noted[s.head].valid
  }

  /** How many attempts have returned. */
  ghost function Returned(states: seq<State>, steps: seq<Step>, i: nat): nat
    requires i <= |steps| < |states|
  {
    if i == 0 then 0 else Returned(states, steps, i - 1) + One(steps[i - 1].Settle? && InFlight(states[i - 1]))
  }

  ghost function One(b: bool): nat {
    if b then 1 else 0
  }

  lemma FlagsStep(s: State, step: Step)
    requires Inv(s) && Enabled(s, step)
    ensures var s' := Next(s, step);
      && s'.head == s.head + (if step.Settle? && step.ok then 1 else 0)
      && (s'.failed <==> Pending(s') && (s.failed || (step.Settle? && !step.ok)))
      && (s'.armed <==> (s.armed && !step.Retry?) || (step.Settle? && !step.ok && !step.callbackThrows))
      && |s'.tried| - One(InFlight(s')) == |s.tried| - One(InFlight(s)) + One(step.Settle? && InFlight(s))
  {
    hide Firsts, ValidOnes;
  }

  /**
   In every state of every run: the queue has lost exactly as many events as publishes succeeded; the failed flag is up
   exactly when a publish failed and the queue has not been empty since; the timer is set exactly when one failed
   whose callback returned and no retry has fired since; and at most one attempt is under way, all earlier ones having
   returned.
   */
  lemma {:induction false} FlagsMean(states: seq<State>, steps: seq<Step>, i: nat)
    requires Run(states, steps) && i < |states|
    ensures states[i].head == Settled(steps, i)
    ensures states[i].failed <==> FailedSince(states, steps, i)
    ensures states[i].armed <==> ArmedSince(steps, i)
    ensures |states[i].tried| == Returned(states, steps, i) + One(InFlight(states[i]))
  {
    if i > 0 {
      FlagsMean(states, steps, i - 1);
      FirstCopiesInOrder(states, steps, i - 1);
      FlagsStep(states[i - 1], steps[i - 1]);
      hide Inv, Next, Enabled, Run, InFlight;
      FailedMore(states, steps, i);
      ArmedMore(steps, i);
    }
  }

  lemma FailedMore(states: seq<State>, steps: seq<Step>, i: nat)
    requires 0 < i <= |steps| < |states|
    ensures FailedSince(states, steps, i) <==>
      Pending(states[i]) && (FailedSince(states, steps, i - 1) || (steps[i - 1].Settle? && !steps[i - 1].ok))
  {
    if FailedSince(states, steps, i) {
      var k: nat :| k < i && FailedAt(states, steps, k, i);
      assert k < i - 1 ==> FailedAt(states, steps, k, i - 1);
    }
    if Pending(states[i]) && FailedSince(states, steps, i - 1) {
      var k: nat :| k < i - 1 && FailedAt(states, steps, k, i - 1);
      assert FailedAt(states, steps, k, i);
    }
    if Pending(states[i]) && steps[i - 1].Settle? && !steps[i - 1].ok {
      assert FailedAt(states, steps, i - 1, i);
    }
  }

  lemma ArmedMore(steps: seq<Step>, i: nat)
    requires 0 < i <= |steps|
    ensures var step := steps[i - 1];
      ArmedSince(steps, i) <==> (ArmedSince(steps, i - 1) && !step.Retry?) || (step.Settle? && !step.ok && !step.callbackThrows)
  {
    if ArmedSince(steps, i) {
      var k: nat :| k < i && ArmedAt(steps, k, i);
      assert k < i - 1 ==> ArmedAt(steps, k, i - 1);
    }
    if ArmedSince(steps, i - 1) && !steps[i - 1].Retry? {
      var k: nat :| k < i - 1 && ArmedAt(steps, k, i - 1);
      assert ArmedAt(steps, k, i);
    }
    if steps[i - 1].Settle? && !steps[i - 1].ok && !steps[i - 1].callbackThrows {
      assert ArmedAt(steps, i - 1, i);
    }
  }
}
