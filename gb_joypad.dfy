/** The Game Boy emulator's joypad on the EFI console: eight buttons, each bound to an EFI scan code or, when
  * its scan code is 0, to a Unicode character; a key-queue drain that sets the pressed buttons, adjusts the
  * display scale and reports ESC. The console's key queue is an input sequence; a failed read ends the
  * drain like an empty queue. */
module GbJoypad {

  datatype Option<T> = None | Some(value: T)

  const BUTTONS := 8
  const UP := 0
  const DOWN := 1
  const LEFT := 2
  const RIGHT := 3
  const A := 4
  const B := 5
  const START := 6
  const SELECT := 7

  const SCAN_UP := 1
  const SCAN_DOWN := 2
  const SCAN_RIGHT := 3
  const SCAN_LEFT := 4
  const SCAN_ESC := 0x17

  const CHAR_CARRIAGE_RETURN := 0x0D

  /** The bindings installed by init_joypad, indexed by button. */
  const SCAN_CONFIG: seq<int> := [SCAN_UP, SCAN_DOWN, SCAN_LEFT, SCAN_RIGHT, 0, 0, 0, 0]
  const KEY_CONFIG: seq<int> := [0, 0, 0, 0, 'a' as int, 's' as int, CHAR_CARRIAGE_RETURN, ' ' as int]

  /** One EFI keystroke: a scan code and a Unicode character. */
  datatype KeyStroke = KeyStroke(scanCode: int, unicode: int)

  /** The button a keystroke selects, searching from button i on: the first whose scan code equals the
    * keystroke's and, when that scan code is 0, whose key code equals its character. */
  function Select(scan: seq<int>, keys: seq<int>, k: KeyStroke, i: nat): (b: Option<nat>)
    requires |scan| == |keys| == BUTTONS && i <= BUTTONS
    decreases BUTTONS - i
    ensures b.Some? ==> i <= b.value < BUTTONS && scan[b.value] == k.scanCode
                        && (k.scanCode == 0 ==> keys[b.value] == k.unicode)
    ensures b.Some? ==> forall j :: i <= j < b.value ==> !(scan[j] == k.scanCode && (k.scanCode != 0 || keys[j] == k.unicode))
    ensures b.None? ==> forall j :: i <= j < BUTTONS ==> !(scan[j] == k.scanCode && (k.scanCode != 0 || keys[j] == k.unicode))
  {
    if i == BUTTONS then None
    else if scan[i] == k.scanCode && (k.scanCode != 0 || keys[i] == k.unicode) then Some(i)
    else Select(scan, keys, k, i + 1)
  }

  /** With the default bindings, the arrows select by scan code and A, B, START and SELECT by 'a', 's',
    * carriage return and space. */
  lemma DefaultBindings(k: KeyStroke)
    ensures var b := Select(SCAN_CONFIG, KEY_CONFIG, k, 0);
            (k.scanCode == SCAN_UP ==> b == Some(UP)) && (k.scanCode == SCAN_DOWN ==> b == Some(DOWN))
            && (k.scanCode == SCAN_LEFT ==> b == Some(LEFT)) && (k.scanCode == SCAN_RIGHT ==> b == Some(RIGHT))
            && (k.scanCode == 0 && k.unicode == 'a' as int ==> b == Some(A))
            && (k.scanCode == 0 && k.unicode == 's' as int ==> b == Some(B))
            && (k.scanCode == 0 && k.unicode == CHAR_CARRIAGE_RETURN ==> b == Some(START))
            && (k.scanCode == 0 && k.unicode == ' ' as int ==> b == Some(SELECT))
            && (k.scanCode !in {0, SCAN_UP, SCAN_DOWN, SCAN_LEFT, SCAN_RIGHT} ==> b == None)
  {
  }

  /** The index of the first ESC keystroke, or the queue's length when there is none. */
  function EscAt(q: seq<KeyStroke>): (n: nat)
    ensures n <= |q| && (n < |q| ==> q[n].scanCode == SCAN_ESC)
    ensures forall i :: 0 <= i < n ==> q[i].scanCode != SCAN_ESC
  {
    if |q| == 0 then 0 else if q[0].scanCode == SCAN_ESC then 0 else EscAt(q[1..]) + 1
  }

  /** The button states after the keystrokes of q, from all released. */
  function States(scan: seq<int>, keys: seq<int>, q: seq<KeyStroke>): (s: seq<int>)
    requires |scan| == |keys| == BUTTONS
    ensures |s| == BUTTONS
  {
    if |q| == 0 then seq(BUTTONS, _ => 0)
    else
      var s := States(scan, keys, q[..|q| - 1]);
      match Select(scan, keys, q[|q| - 1], 0)
      case None => s
      case Some(b) => s[b := 1]
  }

  /** Some keystroke of q selects button b. */
  predicate Selected(scan: seq<int>, keys: seq<int>, q: seq<KeyStroke>, b: nat)
    requires |scan| == |keys| == BUTTONS
  {
    exists i :: 0 <= i < |q| && Select(scan, keys, q[i], 0) == Some(b)
  }

  lemma StatesStep(scan: seq<int>, keys: seq<int>, q: seq<KeyStroke>, b: nat)
    requires |scan| == |keys| == BUTTONS && b < BUTTONS && |q| > 0
    ensures States(scan, keys, q)[b]
            == if Select(scan, keys, q[|q| - 1], 0) == Some(b) then 1 else States(scan, keys, q[..|q| - 1])[b]
  {
    var s0 := States(scan, keys, q[..|q| - 1]);
    match Select(scan, keys, q[|q| - 1], 0) {
      case None =>
        assert States(scan, keys, q) == s0;
      case Some(c) =>
        assert States(scan, keys, q) == s0[c := 1];
    }
  }

  /** A button is pressed (1) exactly when some keystroke selected it, and released (0) otherwise. */
  lemma {:induction false} StatesPressed(scan: seq<int>, keys: seq<int>, q: seq<KeyStroke>, b: nat)
    requires |scan| == |keys| == BUTTONS && b < BUTTONS
    ensures var s := States(scan, keys, q)[b];
            (s == 1 <==> Selected(scan, keys, q, b)) && (s == 0 || s == 1)
  {
    if |q| > 0 {
      var init := q[..|q| - 1];
      var last := |q| - 1;
      StatesPressed(scan, keys, init, b);
      StatesStep(scan, keys, q, b);
      if Selected(scan, keys, init, b) {
        var i :| 0 <= i < |init| && Select(scan, keys, init[i], 0) == Some(b);
        assert q[i] == init[i];
      }
      if Select(scan, keys, q[last], 0) == Some(b) {
        assert Selected(scan, keys, q, b);
      }
      if Selected(scan, keys, q, b) {
        var i :| 0 <= i < |q| && Select(scan, keys, q[i], 0) == Some(b);
        if i < last {
          assert init[i] == q[i];
        }
      }
    }
  }

  /** The scale after one keystroke: '2' increments it, '1' decrements it but never below 1. */
  function ScaleStep(scale: int, k: KeyStroke): (r: int)
    ensures scale >= 1 ==> r >= 1
    ensures k.unicode == '2' as int ==> r == scale + 1
    ensures k.unicode == '1' as int ==> r == if scale - 1 < 1 then 1 else scale - 1
    ensures k.unicode != '1' as int && k.unicode != '2' as int ==> r == scale
  {
    var s := if k.unicode == '2' as int then scale + 1 else scale;
    if k.unicode == '1' as int then (if s - 1 < 1 then 1 else s - 1) else s
  }

  /** The scale after the keystrokes of q. */
  function Scale(scale: int, q: seq<KeyStroke>): int
  {
    if |q| == 0 then scale else ScaleStep(Scale(scale, q[..|q| - 1]), q[|q| - 1])
  }

  /** A scale of at least 1 stays so whatever keys are pressed. */
  lemma {:induction false} ScaleAtLeastOne(scale: int, q: seq<KeyStroke>)
    requires scale >= 1
    ensures Scale(scale, q) >= 1
  {
    if |q| > 0 {
      ScaleAtLeastOne(scale, q[..|q| - 1]);
    }
  }

  /** The joypad's globals: the eight buttons' bindings and states, and the display scale. */
  class Joypad {
    const scanCodes: array<int>
    const keyCodes: array<int>
    const states: array<int>
    var scale: int

    predicate Valid()
    {
      scanCodes.Length == BUTTONS && keyCodes.Length == BUTTONS && states.Length == BUTTONS
      && states != scanCodes && states != keyCodes
    }

    /** The globals as initialised, followed by init_joypad: default bindings, all released. */
    constructor()
      ensures Valid() && scanCodes[..] == SCAN_CONFIG && keyCodes[..] == KEY_CONFIG && scale == 1
      ensures forall i :: 0 <= i < BUTTONS ==> states[i] == 0
    {
      scale := 1;
      states := new int[BUTTONS](_ => 0);
      var s := new int[BUTTONS](i requires 0 <= i < BUTTONS => SCAN_CONFIG[i]);
      var k := new int[BUTTONS](i requires 0 <= i < BUTTONS => KEY_CONFIG[i]);
      scanCodes, keyCodes := s, k;
    }

    /** key_pressed: some button is held. */
    function KeyPressed(): (r: bool)
      reads this, states
      requires Valid()
      ensures r <==> exists i :: 0 <= i < BUTTONS && states[i] != 0
    {
      states[DOWN] != 0 || states[UP] != 0 || states[LEFT] != 0 || states[RIGHT] != 0
      || states[A] != 0 || states[B] != 0 || states[START] != 0 || states[SELECT] != 0
    }

    /** unset_keys: every button released. */
    method UnsetKeys()
      requires Valid()
      modifies states
      ensures forall i :: 0 <= i < BUTTONS ==> states[i] == 0
    {
      var i := 0;
      while i < BUTTONS
        invariant 0 <= i <= BUTTONS && forall j :: 0 <= j < i ==> states[j] == 0
      {
        states[i] := 0;
        i := i + 1;
      }
    }

    /** The button search for one keystroke. */
    method FindButton(k: KeyStroke) returns (b: Option<nat>)
      requires Valid()
      ensures b == Select(scanCodes[..], keyCodes[..], k, 0)
    {
      var i := 0;
      while i < BUTTONS
        invariant 0 <= i <= BUTTONS
        invariant Select(scanCodes[..], keyCodes[..], k, 0) == Select(scanCodes[..], keyCodes[..], k, i)
      {
        if scanCodes[i] == k.scanCode {
          if k.scanCode != 0 {
            return Some(i);
          }
          if keyCodes[i] == k.unicode {
            return Some(i);
          }
        }
        i := i + 1;
      }
      return None;
    }

    /** update_keys: releases every button, then drains the queue; ESC returns at once (true), otherwise the
      * queue's end returns false. */
    method UpdateKeys(queue: seq<KeyStroke>) returns (quit: bool)
      requires Valid()
      modifies this, states
      ensures Valid() && quit == (EscAt(queue) < |queue|)
      ensures states[..] == States(scanCodes[..], keyCodes[..], queue[..EscAt(queue)])
      ensures scale == Scale(old(scale), queue[..EscAt(queue)])
    {
      UnsetKeys();
      assert states[..] == States(scanCodes[..], keyCodes[..], queue[..0]);
      var k := 0;
      while k < |queue|
        invariant 0 <= k <= |queue| && k <= EscAt(queue)
        invariant states[..] == States(scanCodes[..], keyCodes[..], queue[..k])
        invariant scale == Scale(old(scale), queue[..k])
      {
        var key := queue[k];
        if key.scanCode == SCAN_ESC {
          return true;
        }
        assert queue[..k + 1][..k] == queue[..k] && queue[..k + 1][k] == key;
        scale := ScaleStep(scale, key);
        var b := FindButton(key);
        if b.Some? {
          states[b.value] := 1;
        }
        k := k + 1;
      }
      assert queue[..k] == queue;
      return false;
    }
  }
}
