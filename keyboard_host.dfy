/**
 * The USB keyboard demo: the HID boot-protocol scancode to ASCII mapping,
 * the task that prints the key of each report on UART 0, and the
 * "enumeration complete" handler of the keyboard. Usage IDs are those of
 * the Keyboard/Keypad page (0x07), section 10 of the USB HID Usage Tables
 * 1.12.
 */
module KeyboardHost {
  import opened Integers
  import opened UsbHost
  import Uart

  const HID_KEYBOARD_SC_A: uint8 := 0x04
  const HID_KEYBOARD_SC_Z: uint8 := 0x1D
  const HID_KEYBOARD_SC_1_AND_EXCLAMATION: uint8 := 0x1E
  const HID_KEYBOARD_SC_0_AND_CLOSING_PARENTHESIS: uint8 := 0x27
  const HID_KEYBOARD_SC_ENTER: uint8 := 0x28
  const HID_KEYBOARD_SC_SPACE: uint8 := 0x2C

  /** The characters of usage IDs 0x04 (A) to 0x28 (Enter), in usage order. */
  const KEY_CHARS: string := "abcdefghijklmnopqrstuvwxyz1234567890\n"

  /** A C comparison's value: 1 for true, 0 for false. */
  function CBool(b: bool): bv8
  {
    if b then 1 else 0
  }

  /** The bitwise `&` of two comparison results is their logical conjunction. */
  lemma BitAndOfComparisons(a: bool, b: bool)
    ensures (CBool(a) & CBool(b) != 0) <==> a && b
  {
  }

  /**
   * The if/else chain of KeyboardHost_Task: letters, digits, space and
   * Enter give their character; every other code gives '\0'. The digit
   * range is tested with a bitwise `&` of two comparisons, as written.
   */
  function PressedKey(code: uint8): (c: char)
    ensures HID_KEYBOARD_SC_A <= code <= HID_KEYBOARD_SC_ENTER ==> c == KEY_CHARS[code - HID_KEYBOARD_SC_A]
    ensures code == HID_KEYBOARD_SC_SPACE ==> c == ' '
    ensures !(HID_KEYBOARD_SC_A <= code <= HID_KEYBOARD_SC_ENTER) && code != HID_KEYBOARD_SC_SPACE ==> c == '\0'
  {
    if code >= HID_KEYBOARD_SC_A && code <= HID_KEYBOARD_SC_Z then
      ((code - HID_KEYBOARD_SC_A) + 'a' as int) as char
    else if CBool(code >= HID_KEYBOARD_SC_1_AND_EXCLAMATION) &
            CBool(code < HID_KEYBOARD_SC_0_AND_CLOSING_PARENTHESIS) != 0 then
      BitAndOfComparisons(code >= HID_KEYBOARD_SC_1_AND_EXCLAMATION,
                          code < HID_KEYBOARD_SC_0_AND_CLOSING_PARENTHESIS);
      ((code - HID_KEYBOARD_SC_1_AND_EXCLAMATION) + '1' as int) as char
    else if code == HID_KEYBOARD_SC_0_AND_CLOSING_PARENTHESIS then '0'
    else if code == HID_KEYBOARD_SC_SPACE then ' '
    else if code == HID_KEYBOARD_SC_ENTER then '\n'
    else '\0'
  }

  /** Every character the mapping produces is a lower-case letter, a digit, a space or a line feed. */
  lemma PressedKeyCharset(code: uint8)
    ensures var c := PressedKey(code);
      c == '\0' || 'a' <= c <= 'z' || '0' <= c <= '9' || c == ' ' || c == '\n'
  {
  }

  /** Distinct mapped codes give distinct characters. */
  lemma PressedKeyInjective(a: uint8, b: uint8)
    requires PressedKey(a) != '\0' && PressedKey(a) == PressedKey(b)
    ensures a == b
  {
  }

  /** USB_KeyboardReport_Data_t: the modifier byte, a reserved byte and six key codes. */
  datatype KeyboardReport = KeyboardReport(modifier: uint8, reserved: uint8, keyCode: seq<uint8>)

  /**
   * What one report prints on UART 0: the character of its first key code,
   * or nothing when that code is 0 or has no character.
   */
  function ReportOutput(report: KeyboardReport): (out: seq<char>)
    requires |report.keyCode| == 6
    ensures |out| <= 1
    ensures out == [] <==> PressedKey(report.keyCode[0]) == '\0'
    ensures out != [] ==> out == [PressedKey(report.keyCode[0])]
  {
    var keyCode := report.keyCode[0];
    if keyCode != 0 then
      var pressed := PressedKey(keyCode);
      if pressed != '\0' then Uart.PutChar(0, pressed) else []
    else []
  }

  /** The keyboard's HID interface with its configured port number. */
  class KeyboardHost {
    var portNumber: uint8
    var trace: seq<Request>

    /** The statically initialised interface: port 0, nothing issued yet. */
    constructor ()
      ensures portNumber == 0 && trace == []
    {
      portNumber := 0;
      trace := [];
    }

    /**
     * KeyboardHost_Task: `hostState` is USB_HostState of the keyboard's
     * port, `reportReceived` the class driver's answer to "is a report
     * in", and `report` the report it then hands over. The host state is a
     * table the task reads, not a request, so only the two class-driver
     * calls enter `trace`. The result is what is printed on UART 0.
     */
    method Task(hostState: HostState, reportReceived: bool, report: KeyboardReport) returns (sent: seq<char>)
      requires |report.keyCode| == 6
      modifies this`trace
      ensures hostState != Configured ==> sent == [] && trace == old(trace)
      ensures hostState == Configured && !reportReceived ==> sent == [] && trace == old(trace) + [IsReportReceived]
      ensures hostState == Configured && reportReceived ==>
        sent == ReportOutput(report) && trace == old(trace) + [IsReportReceived, ReceiveReport]
    {
      sent := [];
      if hostState != Configured {
        return;
      }
      trace := trace + [IsReportReceived];
      if reportReceived {
        trace := trace + [ReceiveReport];
        sent := ReportOutput(report);
      }
    }

    /**
     * EVENT_USB_Host_DeviceEnumerationComplete: `answers[i]` says whether
     * step i of KeyboardEnumSteps succeeds. The port number is recorded
     * once the configuration descriptor has been read.
     */
    method EnumerationComplete(corenum: uint8, answers: seq<bool>) returns (outcome: EnumOutcome)
      requires |answers| == |KeyboardEnumSteps(corenum)|
      modifies this`portNumber, this`trace
      ensures outcome == ChainOutcome(answers)
      ensures trace == old(trace) + ChainTrace(KeyboardEnumSteps(corenum), answers, KBD_DECONFIGURE_FROM, corenum)
      ensures portNumber == if answers[0] then corenum else old(portNumber)
    {
      ghost var steps := KeyboardEnumSteps(corenum);
      ghost var d := KBD_DECONFIGURE_FROM;
      trace := trace + [GetConfigDescriptor(corenum)];
      assert trace == old(trace) + steps[..1];
      if !answers[0] {
        ChainStopsAt(steps, answers, d, corenum, 0);
        return FailedAt(0);
      }
      portNumber := corenum;
      trace := trace + [ConfigurePipes];
      assert trace == old(trace) + steps[..2];
      if !answers[1] {
        ChainStopsAt(steps, answers, d, corenum, 1);
        return FailedAt(1);
      }
      trace := trace + [SetConfiguration(portNumber, 1)];
      assert trace == old(trace) + steps[..3];
      if !answers[2] {
        ChainStopsAt(steps, answers, d, corenum, 2);
        return FailedAt(2);
      }
      trace := trace + [SetBootProtocol];
      assert trace == old(trace) + steps;
      if !answers[3] {
        trace := trace + [SetConfiguration(portNumber, 0)];
        ChainStopsAt(steps, answers, d, corenum, 3);
        return FailedAt(3);
      }
      ChainCompletes(steps, answers, d, corenum);
      return Enumerated;
    }
  }

  /** The keyboard chain's steps, in order. */
  function KeyboardEnumSteps(corenum: uint8): seq<Request>
  {
    [GetConfigDescriptor(corenum), ConfigurePipes, SetConfiguration(corenum, 1), SetBootProtocol]
  }

  /** Only the boot-protocol step (index 3) deconfigures on failure. */
  const KBD_DECONFIGURE_FROM: nat := 3

  /** The keyboard is deconfigured exactly when setting the boot protocol fails. */
  lemma OnlyBootProtocolFailureDeconfigures(corenum: uint8, answers: seq<bool>)
    requires |answers| == |KeyboardEnumSteps(corenum)|
    ensures SetConfiguration(corenum, 0) in ChainTrace(KeyboardEnumSteps(corenum), answers, KBD_DECONFIGURE_FROM, corenum)
            <==> ChainOutcome(answers) == FailedAt(3)
  {
    ChainDeconfigures(KeyboardEnumSteps(corenum), answers, KBD_DECONFIGURE_FROM, corenum);
  }
}
