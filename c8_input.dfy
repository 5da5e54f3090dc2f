/** Keyboard driver of the CHIP-8 interpreter: one terminal key becomes one key event. */
module C8Input {
  /** The input driver's status values. */
  datatype InputStatus = InOk | InError

  /** Key events.  Events 0 to 15 are the hexadecimal keypad keys; the interpreter compares
    * them numerically with register values, so they are kept as numbers. */
  const KB_ESC: int := 16
  const KB_PASS: int := 17
  const KB_ERROR: int := 18

  type KeyEvent = e: int | 0 <= e <= KB_ERROR

  /** The terminal code of the Escape key. */
  const TERM_ESC: int := 27

  /** The lower-case hexadecimal digit character naming keypad key `d`. */
  function HexDigit(d: int): (c: int)
    requires 0 <= d < 16
    ensures ('0' as int <= c <= '9' as int) || ('a' as int <= c <= 'f' as int)
  {
    if d < 10 then '0' as int + d else 'a' as int + (d - 10)
  }

  /** The driver's initialisation, which has nothing to set up. */
  function InputInit(): (s: InputStatus)
    ensures s == InOk
  {
    InOk
  }

  /** Translation of one terminal key code (0 when no key is waiting) into a key event. */
  function InputNext(key: int): (e: KeyEvent)
    ensures 0 <= e < 16 <==> (('0' as int <= key <= '9' as int) || ('a' as int <= key <= 'f' as int))
    ensures 0 <= e < 16 ==> key == HexDigit(e)
    ensures e == KB_ESC <==> key == 'z' as int || key == TERM_ESC
    ensures e != KB_ERROR
  {
    if '0' as int <= key <= '9' as int then key - '0' as int
    else if 'a' as int <= key <= 'f' as int then key - 'a' as int + 10
    else if key == 'z' as int || key == TERM_ESC then KB_ESC
    else KB_PASS
  }

  /** Each keypad key is reached from exactly its own digit character. */
  lemma KeypadRoundTrip(d: int)
    requires 0 <= d < 16
    ensures InputNext(HexDigit(d)) == d
  {
  }

  /** Upper-case hexadecimal letters and "no key" are not keypad keys. */
  lemma UpperCaseIsPass(key: int)
    requires key == 0 || 'A' as int <= key <= 'F' as int
    ensures InputNext(key) == KB_PASS
  {
  }
}
