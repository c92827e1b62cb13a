/**
 * The FatFs low-level disk interface shared by every drive: the status
 * flags (DSTATUS), the result codes (DRESULT) and the control command
 * codes, with the values FatFs's diskio.h gives them.
 */
module DiskIo {
  import opened Integers

  /** DSTATUS bit: the drive has not been initialised. */
  const STA_NOINIT: bv8 := 0x01
  /** DSTATUS bit: there is no medium in the drive. */
  const STA_NODISK: bv8 := 0x02

  /** DRESULT: RES_OK, RES_ERROR, RES_WRPRT, RES_NOTRDY, RES_PARERR. */
  datatype DResult = Ok | Error | WriteProtected | NotReady | ParamError

  /** Control command codes of disk_ioctl. */
  const CTRL_SYNC: uint8 := 0
  const GET_SECTOR_COUNT: uint8 := 1
  const GET_SECTOR_SIZE: uint8 := 2
  const GET_BLOCK_SIZE: uint8 := 3

  /** What disk_ioctl stored through its `buff` pointer: nothing, a DWORD or a WORD. */
  datatype IoctlData = NothingStored | StoredDword(dword: uint32) | StoredWord(word: uint16)
}
