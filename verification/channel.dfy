/** The channel as the register layer sees it: an ordered plan of single-register
    writes, the channel's answer to each write, and the device register file the
    accepted writes land in. A multi-write operation is not atomic: it stops at
    the first channel failure and leaves the earlier writes in place. */
module Channel {
  import opened Words
  import opened Types

  /** One `write_register(addr, value)` request. */
  datatype Write = Write(addr: U16, value: U16)

  /** The channel's answer to one request: accepted, an exception response of
      the device (the register is left alone), or a failure of the channel. */
  datatype Ack = Acked | Refused(exceptionCode: U8) | Failed(fault: Fault)

  /** The error a read reports for an answer other than `Acked`: both layers of
      the read's result are propagated (Rust's `??`). */
  function AckError(ack: Ack): (err: Error)
    requires !ack.Acked?
    ensures ack.Failed? <==> err.Transport?
    ensures ack.Failed? ==> err == Transport(ack.fault)
    ensures ack.Refused? ==> err == DeviceException(ack.exceptionCode)
  {
    match ack
    case Refused(code) => DeviceException(code)
    case Failed(f) => Transport(f)
  }

  /** What running a plan did: the requests put on the channel, in order, the
      writes among them the device accepted, and the result returned to the
      caller. */
  datatype Execution = Execution(sent: seq<Write>, applied: seq<Write>, outcome: Result<()>)

  /** The addresses of a plan, in order. */
  function Addresses(plan: seq<Write>): (addrs: seq<U16>)
    ensures |addrs| == |plan|
    ensures forall i :: 0 <= i < |plan| ==> addrs[i] == plan[i].addr
  {
    if |plan| == 0 then [] else [plan[0].addr] + Addresses(plan[1..])
  }

  /** The writes of `plan` whose answer is `Acked`, in order. */
  function Landed(plan: seq<Write>, acks: seq<Ack>): (landed: seq<Write>)
    requires |plan| <= |acks|
    ensures |landed| <= |plan|
    decreases |plan|
  {
    if |plan| == 0 then []
    else (if acks[0].Acked? then [plan[0]] else []) + Landed(plan[1..], acks[1..])
  }

  /** When every write is acknowledged, every write lands. */
  lemma {:induction false} LandedAllAcked(plan: seq<Write>, acks: seq<Ack>)
    requires |plan| <= |acks|
    requires forall j :: 0 <= j < |plan| ==> acks[j].Acked?
    ensures Landed(plan, acks) == plan
    decreases |plan|
  {
    if |plan| > 0 {
      LandedAllAcked(plan[1..], acks[1..]);
      assert [plan[0]] + plan[1..] == plan;
    }
  }

  /** A refused write does not land, so a plan with one lands fewer writes than
      it has. */
  lemma {:induction false} LandedSkipsRefused(plan: seq<Write>, acks: seq<Ack>, k: nat)
    requires |plan| <= |acks|
    requires k < |plan| && acks[k].Refused?
    ensures |Landed(plan, acks)| < |plan|
    decreases |plan|
  {
    if k > 0 {
      LandedSkipsRefused(plan[1..], acks[1..], k - 1);
    }
  }

  /** Issues the writes of `plan` in order, the i-th answered by `acks[i]`, as
      the driver's `write_register` does: a channel failure returns at once
      (the outer `?`), while an exception response is discarded (`let _ =`) and
      the next write is issued as if the write had been accepted. */
  function Run(plan: seq<Write>, acks: seq<Ack>): (e: Execution)
    requires |plan| <= |acks|
    decreases |plan|
    ensures |e.sent| <= |plan|
    ensures e.outcome.Ok? ==> e.sent == plan
    ensures e.outcome.Err? ==> e.outcome.error.Transport?
    ensures e.outcome.Err? ==> |e.sent| > 0 && acks[|e.sent| - 1] == Failed(e.outcome.error.fault)
    ensures forall j :: 0 <= j < |e.sent| && acks[j].Failed? ==> e.outcome.Err? && j == |e.sent| - 1
    ensures e.applied == Landed(e.sent, acks)
  {
    if |plan| == 0 then Execution([], [], Ok(()))
    else
      var rest := Run(plan[1..], acks[1..]);
      assert ([plan[0]] + rest.sent)[1..] == rest.sent;
      match acks[0]
      case Failed(f) => Execution([plan[0]], [], Err(Transport(f)))
      case Refused(_) => Execution([plan[0]] + rest.sent, rest.applied, rest.outcome)
      case Acked => Execution([plan[0]] + rest.sent, [plan[0]] + rest.applied, rest.outcome)
  }

  /** Runs a validated plan; a validation error returns before any write. */
  function Execute(plan: Result<seq<Write>>, acks: seq<Ack>): (e: Execution)
    requires plan.Ok? ==> |plan.value| <= |acks|
    ensures plan.Err? ==> e.sent == [] && e.applied == [] && e.outcome == Err(plan.error)
  {
    match plan
    case Err(err) => Execution([], [], Err(err))
    case Ok(writes) => Run(writes, acks)
  }

  /** If every write is acknowledged the whole plan is issued, every write
      lands, and the call succeeds. */
  lemma {:induction false} RunAllAcknowledged(plan: seq<Write>, acks: seq<Ack>)
    requires |plan| <= |acks|
    requires forall j :: 0 <= j < |plan| ==> acks[j].Acked?
    ensures Run(plan, acks) == Execution(plan, plan, Ok(()))
  {
    RunNoFailure(plan, acks);
    LandedAllAcked(plan, acks);
  }

  /** If no write meets a channel failure the whole plan is issued and the
      call succeeds, whatever the device answered; only the accepted writes
      land. */
  lemma {:induction false} RunNoFailure(plan: seq<Write>, acks: seq<Ack>)
    requires |plan| <= |acks|
    requires forall j :: 0 <= j < |plan| ==> !acks[j].Failed?
    ensures Run(plan, acks) == Execution(plan, Landed(plan, acks), Ok(()))
    decreases |plan|
  {
    if |plan| > 0 {
      RunNoFailure(plan[1..], acks[1..]);
      assert [plan[0]] + plan[1..] == plan;
    }
  }

  /** If write k (counting from 0) is the first to meet a channel failure,
      exactly writes 0..k were put on the channel, the accepted ones among
      writes 0..k-1 took effect, no later write was issued, and the call
      returns that write's fault. */
  lemma {:induction false} RunFirstFailure(plan: seq<Write>, acks: seq<Ack>, k: nat)
    requires |plan| <= |acks|
    requires k < |plan| && acks[k].Failed?
    requires forall j :: 0 <= j < k ==> !acks[j].Failed?
    ensures Run(plan, acks) == Execution(plan[..k + 1], Landed(plan[..k], acks), Err(Transport(acks[k].fault)))
    decreases k
  {
    if k > 0 {
      RunFirstFailure(plan[1..], acks[1..], k - 1);
      assert [plan[0]] + plan[1..][..k] == plan[..k + 1];
      assert plan[..k][1..] == plan[1..][..k - 1];
    } else {
      assert plan[..1] == [plan[0]];
    }
  }

  /** A run issues a prefix of its plan, in order: no write is skipped and
      none is issued after a channel failure. */
  lemma RunIssuesPrefix(plan: seq<Write>, acks: seq<Ack>)
    requires |plan| <= |acks|
    ensures Run(plan, acks).sent <= plan
  {
    var k := FirstFailure(acks, |plan|);
    if k < |plan| {
      RunFirstFailure(plan, acks, k);
    } else {
      RunNoFailure(plan, acks);
    }
  }

  /** Continues an execution with a second plan, answered by `acks`, only if
      the first part succeeded. */
  function AndThen(e1: Execution, second: seq<Write>, acks: seq<Ack>): Execution
    requires |second| <= |acks|
  {
    if e1.outcome.Err? then e1
    else var e2 := Run(second, acks); Execution(e1.sent + e2.sent, e1.applied + e2.applied, e2.outcome)
  }

  /** The position of the first channel failure among the first `n` answers,
      or `n` if there is none. */
  function FirstFailure(acks: seq<Ack>, n: nat): (k: nat)
    requires n <= |acks|
    ensures k <= n
    ensures forall j :: 0 <= j < k ==> !acks[j].Failed?
    ensures k < n ==> acks[k].Failed?
    decreases n
  {
    if n == 0 || acks[0].Failed? then 0
    else
      var k := 1 + FirstFailure(acks[1..], n - 1);
      assert forall j :: 1 <= j < k ==> acks[j] == acks[1..][j - 1];
      k
  }

  /** The writes of a concatenation that land are those of its parts. */
  lemma {:induction false} LandedAppend(first: seq<Write>, second: seq<Write>, acks: seq<Ack>)
    requires |first| + |second| <= |acks|
    ensures Landed(first + second, acks) == Landed(first, acks) + Landed(second, acks[|first|..])
    decreases |first|
  {
    if |first| == 0 {
      assert first + second == second;
      assert acks[|first|..] == acks;
    } else {
      assert (first + second)[0] == first[0];
      assert (first + second)[1..] == first[1..] + second;
      assert acks[1..][|first[1..]|..] == acks[|first|..];
      LandedAppend(first[1..], second, acks[1..]);
      var head := if acks[0].Acked? then [first[0]] else [];
      assert head + (Landed(first[1..], acks[1..]) + Landed(second, acks[|first|..]))
          == (head + Landed(first[1..], acks[1..])) + Landed(second, acks[|first|..]);
    }
  }

  /** A prefix of a concatenation reaching into its second part. */
  lemma TakeAppend(first: seq<Write>, second: seq<Write>, n: nat)
    requires |first| <= n <= |first| + |second|
    ensures (first + second)[..n] == first + second[..n - |first|]
  {
  }

  /** Running `first + second` is running `first` and, only if it succeeded,
      running `second` on the following answers: a concatenated plan behaves
      exactly like a chain of `?`-separated calls. */
  lemma RunAppend(first: seq<Write>, second: seq<Write>, acks: seq<Ack>)
    requires |first| + |second| <= |acks|
    ensures Run(first + second, acks) == AndThen(Run(first, acks), second, acks[|first|..])
  {
    var k := FirstFailure(acks, |first| + |second|);
    if k == |first| + |second| {
      RunAppendNoFailure(first, second, acks);
    } else if k < |first| {
      RunAppendFailsInFirst(first, second, acks, k);
    } else {
      RunAppendFailsInSecond(first, second, acks, k);
    }
  }

  /** `RunAppend` when no write of either part meets a channel failure. */
  lemma RunAppendNoFailure(first: seq<Write>, second: seq<Write>, acks: seq<Ack>)
    requires |first| + |second| <= |acks|
    requires forall j :: 0 <= j < |first| + |second| ==> !acks[j].Failed?
    ensures Run(first + second, acks) == AndThen(Run(first, acks), second, acks[|first|..])
  {
    var rest := acks[|first|..];
    var e1 := Run(first, acks);
    assert e1 == Execution(first, Landed(first, acks), Ok(())) by {
      RunNoFailure(first, acks);
    }
    var e2 := Run(second, rest);
    assert e2 == Execution(second, Landed(second, rest), Ok(())) by {
      RunNoFailure(second, rest);
    }
    var x := Run(first + second, acks);
    assert x == Execution(first + second, Landed(first, acks) + Landed(second, rest), Ok(())) by {
      RunNoFailure(first + second, acks);
      LandedAppend(first, second, acks);
    }
  }

  /** `RunAppend` when the first channel failure is in the first part. */
  lemma RunAppendFailsInFirst(first: seq<Write>, second: seq<Write>, acks: seq<Ack>, k: nat)
    requires |first| + |second| <= |acks|
    requires k < |first| && acks[k].Failed?
    requires forall j :: 0 <= j < k ==> !acks[j].Failed?
    ensures Run(first + second, acks) == AndThen(Run(first, acks), second, acks[|first|..])
  {
    var e1 := Run(first, acks);
    assert e1 == Execution(first[..k + 1], Landed(first[..k], acks), Err(Transport(acks[k].fault))) by {
      RunFirstFailure(first, acks, k);
    }
    var x := Run(first + second, acks);
    assert x == e1 by {
      RunFirstFailure(first + second, acks, k);
      assert (first + second)[..k + 1] == first[..k + 1];
      assert (first + second)[..k] == first[..k];
    }
  }

  /** `RunAppend` when the first channel failure is in the second part. */
  lemma RunAppendFailsInSecond(first: seq<Write>, second: seq<Write>, acks: seq<Ack>, k: nat)
    requires |first| + |second| <= |acks|
    requires |first| <= k < |first| + |second| && acks[k].Failed?
    requires forall j :: 0 <= j < k ==> !acks[j].Failed?
    ensures Run(first + second, acks) == AndThen(Run(first, acks), second, acks[|first|..])
  {
    var rest := acks[|first|..];
    var m := k - |first|;
    RunNoFailure(first, acks);
    assert rest[m] == acks[k];
    RunFirstFailure(second, rest, m);
    RunAcrossFailure(first, second, acks, k);
  }

  /** The closed form of a run whose first channel failure, at write k, lies
      in the second part of the plan. */
  lemma RunAcrossFailure(first: seq<Write>, second: seq<Write>, acks: seq<Ack>, k: nat)
    requires |first| + |second| <= |acks|
    requires |first| <= k < |first| + |second| && acks[k].Failed?
    requires forall j :: 0 <= j < k ==> !acks[j].Failed?
    ensures Run(first + second, acks)
         == Execution(first + second[..k - |first| + 1], Landed(first, acks) + Landed(second[..k - |first|], acks[|first|..]),
                      Err(Transport(acks[k].fault)))
  {
    RunFirstFailure(first + second, acks, k);
    TakeAppend(first, second, k + 1);
    TakeAppend(first, second, k);
    LandedAppend(first, second[..k - |first|], acks);
  }

  /** A write the device refuses, in a plan the channel carries without
      failure, is reported as a success although it never took effect: the
      caller sees `Ok(())` and fewer writes land than were planned. */
  lemma RefusedWriteReportsSuccess(plan: seq<Write>, acks: seq<Ack>, k: nat)
    requires |plan| <= |acks|
    requires k < |plan| && acks[k].Refused?
    requires forall j :: 0 <= j < |plan| ==> !acks[j].Failed?
    ensures Run(plan, acks).outcome == Ok(())
    ensures |Run(plan, acks).applied| < |plan|
  {
    RunNoFailure(plan, acks);
    LandedSkipsRefused(plan, acks, k);
  }

  /** A plan of distinct registers whose first write alone is refused runs to
      completion and reports success, yet that first register keeps its value. */
  lemma RefusedFirstWriteLost(dev: Device, plan: seq<Write>, acks: seq<Ack>)
    requires 0 < |plan| <= |acks| && DistinctAddresses(plan)
    requires acks[0].Refused?
    requires forall j :: 1 <= j < |plan| ==> acks[j].Acked?
    ensures Run(plan, acks) == Execution(plan, plan[1..], Ok(()))
    ensures Settle(dev, Run(plan, acks)).Read(plan[0].addr) == dev.Read(plan[0].addr)
  {
    RunNoFailure(plan, acks);
    LandedAllAcked(plan[1..], acks[1..]);
    StoreFrame(dev, plan[1..], plan[0].addr);
  }

  /** The evidently intended write loop: an exception response stops the plan
      like a channel failure and is reported as the device's exception, as the
      driver's reads already do (`??`). */
  function RunChecked(plan: seq<Write>, acks: seq<Ack>): (e: Execution)
    requires |plan| <= |acks|
    decreases |plan|
    ensures e.sent <= plan
    ensures e.outcome.Ok? <==> forall j :: 0 <= j < |plan| ==> acks[j].Acked?
    ensures e.outcome.Ok? ==> e.sent == plan && e.applied == plan
    ensures e.outcome.Err? ==> |e.sent| > 0 && !acks[|e.sent| - 1].Acked?
    ensures e.outcome.Err? ==> e.outcome.error == AckError(acks[|e.sent| - 1])
    ensures e.outcome.Err? ==> e.applied == e.sent[..|e.sent| - 1]
    ensures forall j :: 0 <= j < |e.applied| ==> acks[j].Acked?
  {
    if |plan| == 0 then Execution([], [], Ok(()))
    else if !acks[0].Acked? then Execution([plan[0]], [], Err(AckError(acks[0])))
    else
      var rest := RunChecked(plan[1..], acks[1..]);
      assert forall j :: 1 <= j < |plan| ==> acks[1..][j - 1] == acks[j];
      assert rest.outcome.Err? ==> ([plan[0]] + rest.sent)[..|rest.sent|] == [plan[0]] + rest.sent[..|rest.sent| - 1];
      Execution([plan[0]] + rest.sent, [plan[0]] + rest.applied, rest.outcome)
  }

  /** Runs a validated plan with exception responses checked. */
  function ExecuteChecked(plan: Result<seq<Write>>, acks: seq<Ack>): (e: Execution)
    requires plan.Ok? ==> |plan.value| <= |acks|
    ensures plan.Err? ==> e.sent == [] && e.applied == [] && e.outcome == Err(plan.error)
  {
    match plan
    case Err(err) => Execution([], [], Err(err))
    case Ok(writes) => RunChecked(writes, acks)
  }

  /** The checked loop and the loop as written agree whenever the device
      refuses none of the writes issued, so every fact proved about the
      acknowledged or failed runs holds for both. */
  lemma {:induction false} RunCheckedAgrees(plan: seq<Write>, acks: seq<Ack>)
    requires |plan| <= |acks|
    requires forall j :: 0 <= j < |plan| ==> !acks[j].Refused?
    ensures RunChecked(plan, acks) == Run(plan, acks)
    decreases |plan|
  {
    if |plan| > 0 && acks[0].Acked? {
      RunCheckedAgrees(plan[1..], acks[1..]);
    }
  }

  /** The device's holding registers, given by the writes that have reached
      them in order: a register reads as the value of its latest write, and a
      register never written reads as 0. */
  datatype Device = Device(log: seq<Write>) {
    function Read(addr: U16): U16
      decreases |log|
    {
      if |log| == 0 then 0
      else if log[|log| - 1].addr == addr then log[|log| - 1].value
      else Device(log[..|log| - 1]).Read(addr)
    }
    function Put(w: Write): (d: Device)
      ensures d.Read(w.addr) == w.value
    {
      Device(log + [w])
    }
  }

  /** A write leaves every other register unchanged. */
  lemma PutFrame(dev: Device, w: Write, a: U16)
    requires a != w.addr
    ensures dev.Put(w).Read(a) == dev.Read(a)
  {
    assert (dev.log + [w])[..|dev.log|] == dev.log;
  }

  /** The device after the writes of `plan` have taken effect in order. */
  function Store(dev: Device, plan: seq<Write>): Device
    decreases |plan|
  {
    if |plan| == 0 then dev else Store(dev.Put(plan[0]), plan[1..])
  }

  /** The device after an execution: only the accepted writes took effect. */
  function Settle(dev: Device, e: Execution): Device {
    Store(dev, e.applied)
  }

  /** Every address of the plan is written at most once. */
  predicate DistinctAddresses(plan: seq<Write>) {
    forall i, j :: 0 <= i < j < |plan| ==> plan[i].addr != plan[j].addr
  }

  /** A register the plan never writes keeps its value. */
  lemma {:induction false} StoreFrame(dev: Device, plan: seq<Write>, a: U16)
    requires forall i :: 0 <= i < |plan| ==> plan[i].addr != a
    ensures Store(dev, plan).Read(a) == dev.Read(a)
    decreases |plan|
  {
    if |plan| > 0 {
      PutFrame(dev, plan[0], a);
      StoreFrame(dev.Put(plan[0]), plan[1..], a);
    }
  }

  /** In a plan with distinct addresses every write can be read back afterwards. */
  lemma {:induction false} StoreReadBack(dev: Device, plan: seq<Write>, i: nat)
    requires DistinctAddresses(plan)
    requires i < |plan|
    ensures Store(dev, plan).Read(plan[i].addr) == plan[i].value
    decreases |plan|
  {
    if i == 0 {
      StoreFrame(dev.Put(plan[0]), plan[1..], plan[0].addr);
    } else {
      StoreReadBack(dev.Put(plan[0]), plan[1..], i - 1);
    }
  }

  /** Storing a concatenation is storing its parts in order. */
  lemma {:induction false} StoreAppend(dev: Device, first: seq<Write>, second: seq<Write>)
    ensures Store(dev, first + second) == Store(Store(dev, first), second)
    decreases |first|
  {
    if |first| == 0 {
      assert first + second == second;
    } else {
      assert (first + second)[1..] == first[1..] + second;
      StoreAppend(dev.Put(first[0]), first[1..], second);
    }
  }

  /** Storing a plan appends its writes to the device's history. */
  lemma {:induction false} StoreLog(dev: Device, plan: seq<Write>)
    ensures Store(dev, plan) == Device(dev.log + plan)
    decreases |plan|
  {
    if |plan| > 0 {
      StoreLog(dev.Put(plan[0]), plan[1..]);
      assert dev.log + [plan[0]] + plan[1..] == dev.log + plan;
    } else {
      assert dev.log + plan == dev.log;
    }
  }
}
