/**
 * The glue between the USB mass-storage class driver and the FatFs drive
 * adapter: the interface's port number, the cached disk capacity, the
 * attach wait, the test-unit-ready retry loop, sector reads and writes,
 * and the "enumeration complete" handler.
 *
 * The class driver is not part of this model. Each of its answers is an
 * argument of the method that asks for it, and every request this code
 * issues itself is appended to `trace`, the record of what the driver was
 * asked to do. Requests the host task makes on its own, such as the
 * enumeration handler it calls while the attach wait runs, are not
 * entered in that record by the wait.
 */
module MassStorageHost {
  import opened Integers
  import opened UsbHost

  /** The class driver's error code for a logical command failure (device busy). */
  const MS_ERROR_LOGICAL_CMD_FAILED: uint8 := 0x80

  /** FSUSB_DiskGetBlockSz: the erase block size, fixed at 4 KiB and never asked of the device. */
  const ERASE_BLOCK_SIZE: uint32 := 4 * 1024

  /** SCSI_Capacity_t: the number of blocks and the size of one block, in bytes. */
  datatype Capacity = Capacity(blocks: uint32, blockSize: uint32)

  /** What MS_Host_ReadDeviceCapacity returned, and the capacity it stored. */
  datatype CapacityReply = CapacityReply(errorCode: uint8, capacity: Capacity)

  /** The test-unit-ready answers end: some answer is not "busy". */
  predicate EndsReady(codes: seq<uint8>)
  {
    exists i :: 0 <= i < |codes| && codes[i] != MS_ERROR_LOGICAL_CMD_FAILED
  }

  /** The index of the first test-unit-ready answer that is not "busy". */
  function FirstNonBusy(codes: seq<uint8>): (k: nat)
    requires EndsReady(codes)
    ensures k < |codes| && codes[k] != MS_ERROR_LOGICAL_CMD_FAILED
    ensures forall i :: 0 <= i < k ==> codes[i] == MS_ERROR_LOGICAL_CMD_FAILED
  {
    if codes[0] != MS_ERROR_LOGICAL_CMD_FAILED then 0
    else
      assert EndsReady(codes[1..]) by {
        var i :| 0 <= i < |codes| && codes[i] != MS_ERROR_LOGICAL_CMD_FAILED;
        assert codes[1..][i - 1] == codes[i];
      }
      1 + FirstNonBusy(codes[1..])
  }

  /** `k` busy answers followed by any other answer stop the retry loop after exactly `k + 1` polls. */
  lemma {:induction false} BusyThenAnswer(codes: seq<uint8>, k: nat)
    requires k < |codes| && codes[k] != MS_ERROR_LOGICAL_CMD_FAILED
    requires forall i :: 0 <= i < k ==> codes[i] == MS_ERROR_LOGICAL_CMD_FAILED
    ensures EndsReady(codes) && FirstNonBusy(codes) == k
  {
    if k > 0 {
      BusyThenAnswer(codes[1..], k - 1);
    }
  }

  /** FSUSB_DiskAcquire succeeds: the first non-busy answer is 0 and the capacity read succeeds. */
  predicate AcquireSucceeds(codes: seq<uint8>, reply: CapacityReply)
    requires EndsReady(codes)
  {
    codes[FirstNonBusy(codes)] == 0 && reply.errorCode == 0
  }

  /**
   * The requests FSUSB_DiskAcquire issues: one test-unit-ready per answer
   * up to the first non-busy one; then either the capacity read, or, on a
   * test-unit-ready error, deconfiguration; a failed capacity read is
   * followed by deconfiguration too.
   */
  ghost function AcquireTrace(port: uint8, codes: seq<uint8>, reply: CapacityReply): seq<Request>
    requires EndsReady(codes)
  {
    var k := FirstNonBusy(codes);
    Repeat(TestUnitReady(0), k + 1) +
    if codes[k] != 0 then [SetConfiguration(port, 0)]
    else [ReadCapacity(0)] + if reply.errorCode != 0 then [SetConfiguration(port, 0)] else []
  }

  /** The mass-storage chain's steps, in order; the first three fail without deconfiguring. */
  function MsEnumSteps(corenum: uint8): seq<Request>
  {
    [GetConfigDescriptor(corenum), ConfigurePipes, SetConfiguration(corenum, 1),
     GetMaxLun, ResetInterface, RequestSense(0), PreventRemoval(0, true), Inquiry(0)]
  }

  /** The first step whose failure deconfigures the device (max-LUN). */
  const MS_DECONFIGURE_FROM: nat := 3

  /**
   * The mass-storage chain deconfigures the device exactly when it fails
   * at the max-LUN step or a later one, never for the first three steps.
   */
  lemma MsDeconfiguresFromMaxLun(corenum: uint8, answers: seq<bool>)
    requires |answers| == |MsEnumSteps(corenum)|
    ensures SetConfiguration(corenum, 0) in ChainTrace(MsEnumSteps(corenum), answers, MS_DECONFIGURE_FROM, corenum)
            <==> ChainOutcome(answers).FailedAt? && ChainOutcome(answers).step >= MS_DECONFIGURE_FROM
  {
    ChainDeconfigures(MsEnumSteps(corenum), answers, MS_DECONFIGURE_FROM, corenum);
  }

  /** FSUSB_DiskReadyWait: after a delay it reports the disk ready, whatever the timeout. */
  function DiskReadyWait(tout: int): (r: int)
    ensures r == 1
  {
    1
  }

  /** FlashDisk_MS_Interface with the static DiskCapacity beside it. */
  class MassStorageHost {
    var portNumber: uint8
    var capacity: Capacity
    var trace: seq<Request>

    /** The statically initialised interface: port 0, zeroed capacity, nothing issued yet. */
    constructor ()
      ensures portNumber == 0 && capacity == Capacity(0, 0) && trace == []
    {
      portNumber := 0;
      capacity := Capacity(0, 0);
      trace := [];
    }

    /** FSUSB_DiskInit: the handle is the one static interface. */
    method DiskInit() returns (h: MassStorageHost)
      ensures h == this
    {
      h := this;
    }

    /**
     * FSUSB_DiskInsertWait: runs the class-driver and host tasks until the
     * port is configured. `states[i]` is the port's state at the i-th test.
     * Each host task is one `UsbTask` entry, whatever it does inside.
     */
    method DiskInsertWait(states: seq<HostState>) returns (r: int)
      requires exists i :: 0 <= i < |states| && states[i] == Configured
      modifies this`trace
      ensures r == 1
      ensures trace == old(trace) + PollRounds(FirstConfigured(states))
    {
      var i := 0;
      while states[i] != Configured
        invariant 0 <= i <= FirstConfigured(states)
        invariant trace == old(trace) + PollRounds(i)
        decreases FirstConfigured(states) - i
      {
        trace := trace + [ClassTask, UsbTask];
        i := i + 1;
      }
      r := 1;
    }

    /**
     * FSUSB_DiskAcquire: `codes` are the successive test-unit-ready answers
     * and `reply` the capacity read's answer.
     */
    method DiskAcquire(codes: seq<uint8>, reply: CapacityReply) returns (ok: bool)
      requires EndsReady(codes)
      modifies this`trace, this`capacity
      ensures ok == AcquireSucceeds(codes, reply)
      ensures trace == old(trace) + AcquireTrace(portNumber, codes, reply)
      ensures capacity == if codes[FirstNonBusy(codes)] == 0 then reply.capacity else old(capacity)
    {
      var i := 0;
      while true
        invariant 0 <= i <= FirstNonBusy(codes)
        invariant trace == old(trace) + Repeat(TestUnitReady(0), i)
        invariant capacity == old(capacity)
        decreases FirstNonBusy(codes) - i
      {
        var errorCode := codes[i];
        trace := trace + [TestUnitReady(0)];
        if errorCode == 0 {
          break;
        }
        if errorCode != MS_ERROR_LOGICAL_CMD_FAILED {
          trace := trace + [SetConfiguration(portNumber, 0)];
          assert FirstNonBusy(codes) == i;
          return false;
        }
        i := i + 1;
      }
      assert FirstNonBusy(codes) == i;
      trace := trace + [ReadCapacity(0)];
      capacity := reply.capacity;
      if reply.errorCode != 0 {
        trace := trace + [SetConfiguration(portNumber, 0)];
        return false;
      }
      return true;
    }

    /** FSUSB_DiskGetSectorCnt: the cached block count, with no request issued. */
    method DiskGetSectorCnt() returns (n: uint32)
      ensures n == capacity.blocks
    {
      n := capacity.blocks;
    }

    /** FSUSB_DiskGetSectorSz: the cached block size, with no request issued. */
    method DiskGetSectorSz() returns (n: uint32)
      ensures n == capacity.blockSize
    {
      n := capacity.blockSize;
    }

    /**
     * FSUSB_DiskReadSectors: `errorCode` is MS_Host_ReadDeviceBlocks's answer.
     * A failed read deconfigures the device.
     */
    method DiskReadSectors(secStart: uint32, numSec: uint32, errorCode: uint8) returns (ok: bool)
      modifies this`trace
      ensures ok <==> errorCode == 0
      ensures trace == old(trace) + [ReadBlocks(0, secStart, numSec, capacity.blockSize)] +
                       if ok then [] else [SetConfiguration(portNumber, 0)]
    {
      trace := trace + [ReadBlocks(0, secStart, numSec, capacity.blockSize)];
      if errorCode != 0 {
        trace := trace + [SetConfiguration(portNumber, 0)];
        return false;
      }
      return true;
    }

    /**
     * FSUSB_DiskWriteSectors: `errorCode` is MS_Host_WriteDeviceBlocks's answer.
     * A failed write only reports failure.
     */
    method DiskWriteSectors(secStart: uint32, numSec: uint32, errorCode: uint8) returns (ok: bool)
      modifies this`trace
      ensures ok <==> errorCode == 0
      ensures trace == old(trace) + [WriteBlocks(0, secStart, numSec, capacity.blockSize)]
    {
      trace := trace + [WriteBlocks(0, secStart, numSec, capacity.blockSize)];
      ok := errorCode == 0;
    }

    /**
     * EVENT_USB_Host_DeviceEnumerationComplete: `answers[i]` says whether
     * step i of MsEnumSteps succeeds. The port number is recorded once the
     * configuration descriptor has been read.
     */
    method EnumerationComplete(corenum: uint8, answers: seq<bool>) returns (outcome: EnumOutcome)
      requires |answers| == |MsEnumSteps(corenum)|
      modifies this`portNumber, this`trace
      ensures outcome == ChainOutcome(answers)
      ensures trace == old(trace) + ChainTrace(MsEnumSteps(corenum), answers, MS_DECONFIGURE_FROM, corenum)
      ensures portNumber == if answers[0] then corenum else old(portNumber)
      ensures capacity == old(capacity)
    {
      ghost var steps := MsEnumSteps(corenum);
      ghost var d := MS_DECONFIGURE_FROM;
      trace := trace + [GetConfigDescriptor(corenum)];
      assert trace == old(trace) + steps[..1];
      if !answers[0] {
        ChainStopsAt(steps, answers, d, corenum, 0);
        return FailedAt(0);
      }
      portNumber := corenum;
      trace := trace + [ConfigurePipes];
      assert trace == old(trace) + steps[..2];
      if !answers[1] {
        ChainStopsAt(steps, answers, d, corenum, 1);
        return FailedAt(1);
      }
      trace := trace + [SetConfiguration(portNumber, 1)];
      assert trace == old(trace) + steps[..3];
      if !answers[2] {
        ChainStopsAt(steps, answers, d, corenum, 2);
        return FailedAt(2);
      }
      trace := trace + [GetMaxLun];
      assert trace == old(trace) + steps[..4];
      if !answers[3] {
        trace := trace + [SetConfiguration(portNumber, 0)];
        ChainStopsAt(steps, answers, d, corenum, 3);
        return FailedAt(3);
      }
      trace := trace + [ResetInterface];
      assert trace == old(trace) + steps[..5];
      if !answers[4] {
        trace := trace + [SetConfiguration(portNumber, 0)];
        ChainStopsAt(steps, answers, d, corenum, 4);
        return FailedAt(4);
      }
      trace := trace + [RequestSense(0)];
      assert trace == old(trace) + steps[..6];
      if !answers[5] {
        trace := trace + [SetConfiguration(portNumber, 0)];
        ChainStopsAt(steps, answers, d, corenum, 5);
        return FailedAt(5);
      }
      trace := trace + [PreventRemoval(0, true)];
      assert trace == old(trace) + steps[..7];
      if !answers[6] {
        trace := trace + [SetConfiguration(portNumber, 0)];
        ChainStopsAt(steps, answers, d, corenum, 6);
        return FailedAt(6);
      }
      trace := trace + [Inquiry(0)];
      assert trace == old(trace) + steps;
      if !answers[7] {
        trace := trace + [SetConfiguration(portNumber, 0)];
        ChainStopsAt(steps, answers, d, corenum, 7);
        return FailedAt(7);
      }
      ChainCompletes(steps, answers, d, corenum);
      return Enumerated;
    }
  }
}
