/**
 * The ATA drive stub: the same five-operation disk interface, implemented
 * so that it always reports that there is no disk. None of the operations
 * reads or writes the stub's module-level status.
 */
module AtaDrive {
  import opened Integers
  import opened DiskIo

  /** ATA_disk_initialize: reports no disk and enumerates nothing. */
  function AtaDiskInitialize(): (s: bv8)
    ensures s == STA_NODISK && s & STA_NOINIT == 0
  {
    STA_NODISK
  }

  /** ATA_disk_status: reports no disk. */
  function AtaDiskStatus(): (s: bv8)
    ensures s == STA_NODISK
  {
    STA_NODISK
  }

  /** ATA_disk_read: not ready for every buffer, sector and count; the buffer is not touched. */
  method AtaDiskRead(buff: array<bv8>, sector: uint32, count: uint32) returns (r: DResult)
    ensures r == NotReady
  {
    r := NotReady;
  }

  /** ATA_disk_write: not ready for every buffer, sector and count. */
  method AtaDiskWrite(buff: array<bv8>, sector: uint32, count: uint32) returns (r: DResult)
    ensures r == NotReady
  {
    r := NotReady;
  }

  /** ATA_disk_ioctl: not ready for every command, including the four the USB adapter serves. */
  method AtaDiskIoctl(cmd: uint8, buff: array<bv8>) returns (r: DResult)
    ensures r == NotReady
  {
    r := NotReady;
  }
}
