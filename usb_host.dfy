/**
 * What the application code sees of the USB host stack and its class
 * drivers: the requests it issues, in the order it issues them, and the
 * shape shared by the two "enumeration complete" handlers, a fixed chain
 * of steps that stops at the first one that fails.
 */
module UsbHost {
  import opened Integers

  /** One call from the application into the USB host stack or a class driver. */
  datatype Request =
    | GetConfigDescriptor(port: uint8)
    | ConfigurePipes
    | SetConfiguration(port: uint8, config: uint8)
    | GetMaxLun
    | ResetInterface
    | RequestSense(lun: uint8)
    | PreventRemoval(lun: uint8, prevent: bool)
    | Inquiry(lun: uint8)
    | SetBootProtocol
    | IsReportReceived
    | ClassTask
    | UsbTask
    | TestUnitReady(lun: uint8)
    | ReadCapacity(lun: uint8)
    | ReadBlocks(lun: uint8, start: uint32, count: uint32, blockSize: uint32)
    | WriteBlocks(lun: uint8, start: uint32, count: uint32, blockSize: uint32)
    | ReceiveReport

  /** USB_HostState of a port, as far as the application tests it. */
  datatype HostState = Configured | NotConfigured

  /** How an enumeration handler ended: every step passed, or step `step` (from 0) failed. */
  datatype EnumOutcome = Enumerated | FailedAt(step: nat)

  /** The index of the first failing step, or |answers| when every step succeeds. */
  function FirstFailure(answers: seq<bool>): (k: nat)
    ensures k <= |answers|
    ensures forall i :: 0 <= i < k ==> answers[i]
    ensures k < |answers| ==> !answers[k]
  {
    if answers == [] || !answers[0] then 0 else 1 + FirstFailure(answers[1..])
  }

  /** The first failure is at `k` exactly when every earlier step passed and step `k` failed. */
  lemma {:induction false} FirstFailureAt(answers: seq<bool>, k: nat)
    requires k <= |answers|
    requires forall i :: 0 <= i < k ==> answers[i]
    requires k < |answers| ==> !answers[k]
    ensures FirstFailure(answers) == k
  {
    if k > 0 {
      FirstFailureAt(answers[1..], k - 1);
    }
  }

  /**
   * The requests an enumeration chain issues: the steps up to and
   * including the first failing one, followed by SetConfiguration(port, 0)
   * when the failing step is at index `deconfigureFrom` or later.
   */
  ghost function ChainTrace(steps: seq<Request>, answers: seq<bool>, deconfigureFrom: nat, port: uint8): seq<Request>
    requires |answers| == |steps|
  {
    var k := FirstFailure(answers);
    if k == |steps| then steps
    else steps[..k + 1] + (if k >= deconfigureFrom then [SetConfiguration(port, 0)] else [])
  }

  /** A chain whose step `k` is the first to fail issues steps 0..k, and the deconfigure if due. */
  lemma ChainStopsAt(steps: seq<Request>, answers: seq<bool>, deconfigureFrom: nat, port: uint8, k: nat)
    requires |answers| == |steps| && k < |steps|
    requires forall i :: 0 <= i < k ==> answers[i]
    requires !answers[k]
    ensures ChainOutcome(answers) == FailedAt(k)
    ensures ChainTrace(steps, answers, deconfigureFrom, port) ==
            steps[..k + 1] + if k >= deconfigureFrom then [SetConfiguration(port, 0)] else []
  {
    FirstFailureAt(answers, k);
  }

  /** A chain whose steps all succeed issues every step and nothing else. */
  lemma ChainCompletes(steps: seq<Request>, answers: seq<bool>, deconfigureFrom: nat, port: uint8)
    requires |answers| == |steps|
    requires forall i :: 0 <= i < |answers| ==> answers[i]
    ensures ChainOutcome(answers) == Enumerated
    ensures ChainTrace(steps, answers, deconfigureFrom, port) == steps
  {
    FirstFailureAt(answers, |answers|);
  }

  /**
   * When no step is itself the deconfigure request, a chain deconfigures
   * the device exactly when it fails at step `deconfigureFrom` or later.
   */
  lemma ChainDeconfigures(steps: seq<Request>, answers: seq<bool>, deconfigureFrom: nat, port: uint8)
    requires |answers| == |steps| && SetConfiguration(port, 0) !in steps
    ensures SetConfiguration(port, 0) in ChainTrace(steps, answers, deconfigureFrom, port) <==>
            ChainOutcome(answers).FailedAt? && ChainOutcome(answers).step >= deconfigureFrom
  {
    var k := FirstFailure(answers);
    if k < |steps| {
      var prefix := steps[..k + 1];
      assert forall r :: r in prefix ==> r in steps;
      assert SetConfiguration(port, 0) !in prefix;
    }
  }

  /** The outcome an enumeration chain reports for its step answers. */
  function ChainOutcome(answers: seq<bool>): (o: EnumOutcome)
    ensures o == Enumerated <==> forall i :: 0 <= i < |answers| ==> answers[i]
    ensures o.FailedAt? ==> o.step < |answers| && !answers[o.step]
  {
    var k := FirstFailure(answers);
    if k == |answers| then Enumerated else FailedAt(k)
  }

  /** `n` copies of one request. */
  function Repeat(r: Request, n: nat): (s: seq<Request>)
    ensures |s| == n && forall i :: 0 <= i < n ==> s[i] == r
  {
    if n == 0 then [] else Repeat(r, n - 1) + [r]
  }

  /** The index of the first poll that finds the port configured. */
  function FirstConfigured(states: seq<HostState>): (k: nat)
    requires exists i :: 0 <= i < |states| && states[i] == Configured
    ensures k < |states| && states[k] == Configured
    ensures forall i :: 0 <= i < k ==> states[i] != Configured
  {
    if states[0] == Configured then 0
    else
      assert exists i :: 0 <= i < |states[1..]| && states[1..][i] == Configured by {
        var i :| 0 <= i < |states| && states[i] == Configured;
        assert states[1..][i - 1] == states[i];
      }
      1 + FirstConfigured(states[1..])
  }

  /** `n` rounds of the attach-wait loop body: the class-driver task, then the host task. */
  function PollRounds(n: nat): (s: seq<Request>)
    ensures |s| == 2 * n
    ensures forall i :: 0 <= i < n ==> s[2 * i] == ClassTask && s[2 * i + 1] == UsbTask
  {
    if n == 0 then [] else PollRounds(n - 1) + [ClassTask, UsbTask]
  }
}
