/**
 * The FatFs drive adapter for the USB pendrive: a module-level status that
 * is `STA_NOINIT` until one enumeration succeeds, and the five disk
 * operations, which refuse with "not ready" until then.
 */
module UsbDisk {
  import opened Integers
  import opened DiskIo
  import opened UsbHost
  import opened MassStorageHost

  class UsbDisk {
    /** `status`: STA_NOINIT until enumerated, then 0. */
    var status: bv8
    /** `hDisk`: null until the first initialise call sets it. */
    var hDisk: MassStorageHost?
    /** The one mass-storage interface FSUSB_DiskInit hands out. */
    const host: MassStorageHost

    ghost predicate Valid()
      reads this
    {
      && (status == STA_NOINIT || status == 0)
      && (status == 0 ==> hDisk == host)
    }

    /** The adapter as the program starts: not initialised, no handle. */
    constructor (host: MassStorageHost)
      ensures Valid() && status == STA_NOINIT && hDisk == null && this.host == host
    {
      status := STA_NOINIT;
      hDisk := null;
      this.host := host;
    }

    /** USB_disk_status: the current status; nothing is asked of the device. */
    method DiskStatus() returns (s: bv8)
      requires Valid()
      ensures s == status
      ensures s == STA_NOINIT || s == 0
    {
      s := status;
    }

    /**
     * USB_disk_initialize. When the drive is already enumerated it returns
     * at once. Otherwise it waits for the device (`states`), runs the
     * test-unit-ready loop (`codes`) and the capacity read (`reply`), and
     * clears STA_NOINIT exactly when all of that succeeds.
     */
    method DiskInitialize(states: seq<HostState>, codes: seq<uint8>, reply: CapacityReply) returns (s: bv8)
      requires Valid()
      requires status == STA_NOINIT ==>
        (exists i :: 0 <= i < |states| && states[i] == Configured) && EndsReady(codes)
      modifies this`status, this`hDisk, host`trace, host`capacity
      ensures Valid() && s == status
      ensures old(status) != STA_NOINIT ==>
        status == old(status) && hDisk == old(hDisk) &&
        host.trace == old(host.trace) && host.capacity == old(host.capacity)
      ensures old(status) == STA_NOINIT ==>
        && hDisk == host
        && (status == 0 <==> AcquireSucceeds(codes, reply))
        && host.trace == old(host.trace) + PollRounds(FirstConfigured(states)) +
                         AcquireTrace(host.portNumber, codes, reply)
        && host.capacity == if codes[FirstNonBusy(codes)] == 0 then reply.capacity else old(host.capacity)
    {
      if status != STA_NOINIT {
        return status;
      }
      hDisk := host.DiskInit();
      status := STA_NOINIT;
      var _ := hDisk.DiskInsertWait(states);
      var acquired := hDisk.DiskAcquire(codes, reply);
      if !acquired {
        return status;
      }
      status := status & !STA_NOINIT;
      return status;
    }

    /**
     * USB_disk_read: `errorCode` is the class driver's answer to the block
     * read. Refused without any request while STA_NOINIT is set.
     */
    method DiskRead(sector: uint32, count: uint32, errorCode: uint8) returns (r: DResult)
      requires Valid()
      modifies host`trace
      ensures status & STA_NOINIT != 0 ==> r == NotReady && host.trace == old(host.trace)
      ensures status & STA_NOINIT == 0 ==>
        && (r == if errorCode == 0 then Ok else Error)
        && host.trace == old(host.trace) + [ReadBlocks(0, sector, count, host.capacity.blockSize)] +
                         if errorCode == 0 then [] else [SetConfiguration(host.portNumber, 0)]
    {
      if status & STA_NOINIT != 0 {
        return NotReady;
      }
      var ok := hDisk.DiskReadSectors(sector, count, errorCode);
      if ok {
        return Ok;
      }
      return Error;
    }

    /**
     * USB_disk_write: `errorCode` is the class driver's answer to the block
     * write. Refused without any request while STA_NOINIT is set; a failed
     * write leaves the drive enumerated.
     */
    method DiskWrite(sector: uint32, count: uint32, errorCode: uint8) returns (r: DResult)
      requires Valid()
      modifies host`trace
      ensures status & STA_NOINIT != 0 ==> r == NotReady && host.trace == old(host.trace)
      ensures status & STA_NOINIT == 0 ==>
        && (r == if errorCode == 0 then Ok else Error)
        && host.trace == old(host.trace) + [WriteBlocks(0, sector, count, host.capacity.blockSize)]
    {
      if status & STA_NOINIT != 0 {
        return NotReady;
      }
      var ok := hDisk.DiskWriteSectors(sector, count, errorCode);
      if ok {
        return Ok;
      }
      return Error;
    }

    /**
     * USB_disk_ioctl: refused while STA_NOINIT is set; otherwise the four
     * FatFs commands are answered from the cached capacity and the fixed
     * erase block size, and any other command is a parameter error. The
     * sector size is stored through a 16-bit WORD and so truncated.
     */
    method DiskIoctl(cmd: uint8) returns (r: DResult, stored: IoctlData)
      requires Valid()
      ensures status & STA_NOINIT != 0 ==> r == NotReady && stored == NothingStored
      ensures status & STA_NOINIT == 0 && cmd == CTRL_SYNC ==> r == Ok
      ensures status & STA_NOINIT == 0 ==>
        if cmd == CTRL_SYNC then
          r == (if DiskReadyWait(50) != 0 then Ok else Error) && stored == NothingStored
        else if cmd == GET_SECTOR_COUNT then
          r == Ok && stored == StoredDword(host.capacity.blocks)
        else if cmd == GET_SECTOR_SIZE then
          r == Ok && stored == StoredWord(host.capacity.blockSize % 0x1_0000)
        else if cmd == GET_BLOCK_SIZE then
          r == Ok && stored == StoredDword(ERASE_BLOCK_SIZE)
        else
          r == ParamError && stored == NothingStored
    {
      stored := NothingStored;
      if status & STA_NOINIT != 0 {
        return NotReady, stored;
      }
      r := Error;
      if cmd == CTRL_SYNC {
        if DiskReadyWait(50) != 0 {
          r := Ok;
        }
      } else if cmd == GET_SECTOR_COUNT {
        var n := hDisk.DiskGetSectorCnt();
        stored := StoredDword(n);
        r := Ok;
      } else if cmd == GET_SECTOR_SIZE {
        var n := hDisk.DiskGetSectorSz();
        stored := StoredWord(n % 0x1_0000);
        r := Ok;
      } else if cmd == GET_BLOCK_SIZE {
        stored := StoredDword(ERASE_BLOCK_SIZE);
        r := Ok;
      } else {
        r := ParamError;
      }
    }
  }

  /**
   * A pendrive that answers "busy" three times, then "ready", and reports
   * 1000000 blocks of 512 bytes: initialisation succeeds after exactly four
   * test-unit-ready requests, and the sector count and size are the
   * reported ones. A write failure afterwards leaves the drive ready.
   */
  method BusyThenReadyScenario()
  {
    var host := new MassStorageHost();
    var disk := new UsbDisk(host);
    var busy := MS_ERROR_LOGICAL_CMD_FAILED;
    var codes := [busy, busy, busy, 0];
    var reply := CapacityReply(0, Capacity(1000000, 512));
    BusyThenAnswer(codes, 3);
    var states := [Configured];
    assert states[0] == Configured;
    var s := disk.DiskInitialize(states, codes, reply);
    assert s == 0;
    assert host.trace == Repeat(TestUnitReady(0), 4) + [ReadCapacity(0)];
    var r, stored := disk.DiskIoctl(GET_SECTOR_COUNT);
    assert r == Ok && stored == StoredDword(1000000);
    r, stored := disk.DiskIoctl(GET_SECTOR_SIZE);
    assert r == Ok && stored == StoredWord(512);
    r := disk.DiskWrite(5, 2, 1);
    assert r == Error;
    s := disk.DiskStatus();
    assert s == 0;
  }
}
