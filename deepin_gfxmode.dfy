/** The `deepin_gfxmode` command: collect the video modes the active adapter reports that are the current
  * mode or at least 1024 pixels wide into a duplicate-free list, and serialise the list as
  * `<index of the current mode>,<W>x<H>,<W>x<H>,...` followed by a NUL, through a growable string builder.
  *
  * The list after the dummy head node is the sequence `modes` of a ModeList; the builder keeps its buffer
  * as an array whose length is its capacity, so every write the builder makes is checked to stay inside it. */
module DeepinGfxmode {

  datatype Mode = Mode(width: nat, height: nat)

  predicate NoDuplicates(ms: seq<Mode>)
  {
    forall i, j :: 0 <= i < j < |ms| ==> ms[i] != ms[j]
  }

  /** `list_add` on the list's contents: unchanged when present, otherwise prepended. */
  function AddMode(ms: seq<Mode>, m: Mode): (r: seq<Mode>)
    ensures m in r && forall x :: x in r <==> x == m || x in ms
    ensures NoDuplicates(ms) ==> NoDuplicates(r)
  {
    if m in ms then ms else [m] + ms
  }

  /** The hook's filter: the current mode, or any mode at least 1024 pixels wide. */
  predicate Kept(current: Mode, m: Mode)
  {
    m == current || m.width >= 1024
  }

  /** The list after the hook has seen the reported modes in order. */
  function Collect(current: Mode, ms: seq<Mode>, reported: seq<Mode>): (r: seq<Mode>)
    decreases |reported|
  {
    if |reported| == 0 then ms
    else
      var next := if Kept(current, reported[0]) then AddMode(ms, reported[0]) else ms;
      Collect(current, next, reported[1..])
  }

  /** The collected list never holds a mode twice. */
  lemma {:induction false} CollectNoDuplicates(current: Mode, ms: seq<Mode>, reported: seq<Mode>)
    requires NoDuplicates(ms)
    ensures NoDuplicates(Collect(current, ms, reported))
    decreases |reported|
  {
    if |reported| > 0 {
      var next := if Kept(current, reported[0]) then AddMode(ms, reported[0]) else ms;
      CollectNoDuplicates(current, next, reported[1..]);
    }
  }

  /** A mode is collected exactly when it was already listed or was reported and kept. */
  lemma {:induction false} CollectMembers(current: Mode, ms: seq<Mode>, reported: seq<Mode>, m: Mode)
    ensures m in Collect(current, ms, reported) <==> m in ms || (m in reported && Kept(current, m))
    decreases |reported|
  {
    if |reported| > 0 {
      var next := if Kept(current, reported[0]) then AddMode(ms, reported[0]) else ms;
      CollectMembers(current, next, reported[1..], m);
      assert m in reported <==> m == reported[0] || m in reported[1..];
    }
  }

  /** The position of the first mode equal to the current one, or -1. */
  function IndexOf(ms: seq<Mode>, current: Mode): (i: int)
    ensures -1 <= i < |ms|
    ensures i == -1 <==> current !in ms
    ensures i >= 0 ==> ms[i] == current && forall k :: 0 <= k < i ==> ms[k] != current
  {
    if |ms| == 0 then -1
    else if ms[0] == current then 0
    else
      var i := IndexOf(ms[1..], current);
      if i == -1 then -1 else i + 1
  }

  function Digit(d: nat): (c: char)
    requires d < 10
    ensures '0' <= c <= '9'
  {
    ['0', '1', '2', '3', '4', '5', '6', '7', '8', '9'][d]
  }

  /** `%u`: decimal digits, most significant first, without leading zeros. */
  function NatString(n: nat): (s: string)
    ensures |s| > 0 && forall k :: 0 <= k < |s| ==> '0' <= s[k] <= '9'
    ensures n > 0 ==> s[0] != '0'
  {
    if n < 10 then [Digit(n)] else NatString(n / 10) + [Digit(n % 10)]
  }

  function ParseNat(s: string): nat
    requires forall k :: 0 <= k < |s| ==> '0' <= s[k] <= '9'
  {
    if |s| == 0 then 0 else ParseNat(s[..|s| - 1]) * 10 + (s[|s| - 1] as int - '0' as int)
  }

  lemma {:induction false} NatStringRoundTrip(n: nat)
    ensures ParseNat(NatString(n)) == n
  {
    if n >= 10 {
      NatStringRoundTrip(n / 10);
      var s := NatString(n);
      assert s[..|s| - 1] == NatString(n / 10);
      assert Digit(n % 10) as int - '0' as int == n % 10;
    } else {
      assert Digit(n) as int - '0' as int == n;
    }
  }

  /** `%d`. */
  function IntString(i: int): (s: string)
  {
    if i < 0 then "-" + NatString(-i) else NatString(i)
  }

  function ModeString(m: Mode): (s: string)
    ensures ',' !in s
  {
    NatString(m.width) + "x" + NatString(m.height)
  }

  /** The text the join loop has written after k nodes: each mode, followed by ',' when a node follows it. */
  function Pieces(ms: seq<Mode>, k: nat): string
    requires k <= |ms|
  {
    if k == 0 then "" else Pieces(ms, k - 1) + ModeString(ms[k - 1]) + (if k < |ms| then "," else "")
  }

  lemma PiecesExtend(head: string, before: string, after: string, ms: seq<Mode>, k: nat)
    requires k < |ms| && before == head + Pieces(ms, k)
    requires after == before + ModeString(ms[k]) + (if k + 1 < |ms| then "," else "")
    ensures after == head + Pieces(ms, k + 1)
  {
    var p, m, c := Pieces(ms, k), ModeString(ms[k]), if k + 1 < |ms| then "," else "";
    assert Pieces(ms, k + 1) == p + m + c;
    Regroup(head, p, m, c);
  }

  lemma Regroup(a: string, b: string, c: string, d: string)
    ensures a + (b + c + d) == a + b + c + d
  {
  }

  function CountChar(s: string, c: char): nat
  {
    if |s| == 0 then 0 else CountChar(s[..|s| - 1], c) + (if s[|s| - 1] == c then 1 else 0)
  }

  lemma {:induction false} CountCharAppend(a: string, b: string, c: char)
    ensures CountChar(a + b, c) == CountChar(a, c) + CountChar(b, c)
    decreases |b|
  {
    if |b| > 0 {
      assert (a + b)[..|a + b| - 1] == a + b[..|b| - 1];
      CountCharAppend(a, b[..|b| - 1], c);
    } else {
      assert a + b == a;
    }
  }

  lemma {:induction false} CountCharAbsent(s: string, c: char)
    requires c !in s
    ensures CountChar(s, c) == 0
  {
    if |s| > 0 {
      CountCharAbsent(s[..|s| - 1], c);
    }
  }

  /** k modes are separated by k - 1 commas, none trailing. */
  lemma {:induction false} PiecesCommas(ms: seq<Mode>, k: nat)
    requires 0 < k <= |ms|
    ensures CountChar(Pieces(ms, k), ',') == if k < |ms| then k else k - 1
  {
    var sep := if k < |ms| then "," else "";
    CountCharAppend(Pieces(ms, k - 1) + ModeString(ms[k - 1]), sep, ',');
    CountCharAppend(Pieces(ms, k - 1), ModeString(ms[k - 1]), ',');
    CountCharAbsent(ModeString(ms[k - 1]), ',');
    assert CountChar(sep, ',') == if k < |ms| then 1 else 0 by {
      if k < |ms| {
        assert sep[..0] == "";
      }
    }
    if k > 1 {
      PiecesCommas(ms, k - 1);
    } else {
      assert Pieces(ms, 0) == "";
    }
  }

  /** The value `list_join` returns. */
  function Serialised(ms: seq<Mode>, current: Mode): string
  {
    IntString(IndexOf(ms, current)) + "," + Pieces(ms, |ms|) + ['\0']
  }

  lemma JoinText(idx: int, ms: seq<Mode>, current: Mode, t1: string, t2: string, t3: string, s: string)
    requires idx == IndexOf(ms, current) && t1 == "" + IntString(idx) && t2 == t1 + [',']
    requires t3 == t2 + Pieces(ms, |ms|) && s == t3 + ['\0']
    ensures s == Serialised(ms, current)
  {
  }

  /** The mode list, as the nodes after the dummy head, in list order. */
  class ModeList {
    var modes: seq<Mode>

    constructor()
      ensures modes == []
    {
      modes := [];
    }

    /** `list_contains`. */
    method Contains(m: Mode) returns (found: bool)
      ensures found <==> m in modes
    {
      var k := 0;
      while k < |modes|
        invariant 0 <= k <= |modes| && m !in modes[..k]
      {
        if modes[k] == m {
          return true;
        }
        assert modes[..k + 1] == modes[..k] + [modes[k]];
        k := k + 1;
      }
      assert modes[..k] == modes;
      return false;
    }

    /** `list_add`. */
    method Add(m: Mode)
      modifies this
      ensures modes == AddMode(old(modes), m)
    {
      var present := Contains(m);
      if !present {
        modes := [m] + modes;
      }
    }

    /** The hook called for each mode the adapter reports. */
    method Hook(current: Mode, info: Mode)
      modifies this
      ensures modes == if Kept(current, info) then AddMode(old(modes), info) else old(modes)
    {
      if current == info || info.width >= 1024 {
        Add(info);
      }
    }

    /** `list_free`: every node after the head is released. */
    method Free()
      modifies this
      ensures modes == []
    {
      modes := [];
    }
  }

  /** The growable string builder; its capacity is the length of `buf`. */
  class StringBuilder {
    var buf: array<char>
    var len: int

    ghost predicate Valid()
      reads this
    {
      0 <= len <= buf.Length && buf.Length >= 10
    }

    /** The characters written so far. */
    function Text(): string
      reads this, buf
      requires Valid()
    {
      buf[..len]
    }

    /** `string_builder_init`: a capacity of at least 10. */
    constructor(cap: int)
      ensures Valid() && Text() == "" && buf.Length == (if cap < 10 then 10 else cap) && fresh(buf)
    {
      buf := new char[if cap < 10 then 10 else cap];
      len := 0;
    }

    /** `string_builder_grow`: a buffer of twice the capacity plus n holding the same text. */
    method Grow(n: nat)
      requires Valid()
      modifies this
      ensures Valid() && Text() == old(Text()) && len == old(len)
      ensures buf.Length == 2 * old(buf.Length) + n && fresh(buf)
    {
      var b := new char[2 * buf.Length + n];
      var k := 0;
      while k < len
        invariant 0 <= k <= len && b[..k] == buf[..k]
        modifies b
      {
        b[k] := buf[k];
        assert b[..k + 1] == b[..k] + [b[k]];
        assert buf[..k + 1] == buf[..k] + [buf[k]];
        k := k + 1;
      }
      buf := b;
    }

    /** `string_builder_write_char`: grows to twice its capacity when full. */
    method WriteChar(c: char)
      requires Valid()
      modifies this, buf
      ensures Valid() && Text() == old(Text()) + [c] && (buf == old(buf) || fresh(buf))
      ensures buf.Length == if old(len) == old(buf.Length) then 2 * old(buf.Length) else old(buf.Length)
    {
      if len == buf.Length {
        Grow(0);
      }
      buf[len] := c;
      assert buf[..len + 1] == buf[..len] + [c];
      len := len + 1;
    }

    /** `string_builder_write_string`: grows to 2 * cap + |src| + 1 when the text, src and its NUL would not
      * fit below the capacity, then copies src and its NUL terminator after the text. */
    method WriteString(src: string)
      requires Valid() && '\0' !in src
      modifies this, buf
      ensures Valid() && Text() == old(Text()) + src && len < buf.Length && buf[len] == '\0'
      ensures buf == old(buf) || fresh(buf)
      ensures buf.Length == if old(len) + |src| + 1 >= old(buf.Length) then 2 * old(buf.Length) + |src| + 1
                            else old(buf.Length)
    {
      if len + |src| + 1 >= buf.Length {
        Grow(|src| + 1);
      }
      CopyAfterText(src);
      len := len + |src|;
    }

    /** `grub_strcpy(buf + len, src)`: src and its NUL terminator written after the text, which must fit. */
    method CopyAfterText(src: string)
      requires Valid() && len + |src| < buf.Length
      modifies buf
      ensures buf[..len + |src|] == old(buf[..len]) + src && buf[len + |src|] == '\0'
    {
      var k := 0;
      while k < |src|
        invariant 0 <= k <= |src|
        invariant forall j :: 0 <= j < len ==> buf[j] == old(buf[j])
        invariant forall j :: 0 <= j < k ==> buf[len + j] == src[j]
      {
        buf[len + k] := src[k];
        k := k + 1;
      }
      buf[len + |src|] := '\0';
      assert buf[..len + |src|] == old(buf[..len]) + src;
    }

    /** One step of the join's second loop: a mode's text, then ',' when another node follows. */
    method WriteEntry(m: Mode, more: bool)
      requires Valid()
      modifies this, buf
      ensures Valid() && Text() == old(Text()) + ModeString(m) + (if more then "," else "")
      ensures buf == old(buf) || fresh(buf)
    {
      WriteString(ModeString(m));
      if more {
        WriteChar(',');
      }
    }

    /** `string_builder_end`: the NUL terminator as the last character of the text. */
    method End()
      requires Valid()
      modifies this, buf
      ensures Valid() && Text() == old(Text()) + ['\0']
    {
      WriteChar('\0');
    }
  }

  /** The first loop of `list_join`: the position of the current mode, or -1. */
  method FindCurrent(ms: seq<Mode>, current: Mode) returns (idx: int)
    ensures idx == IndexOf(ms, current)
  {
    var count := 0;
    idx := -1;
    while count < |ms|
      invariant 0 <= count <= |ms| && current !in ms[..count]
    {
      if ms[count] == current {
        idx := count;
        break;
      }
      assert ms[..count + 1] == ms[..count] + [ms[count]];
      count := count + 1;
    }
    assert idx == -1 ==> ms[..count] == ms;
    assert idx >= 0 ==> forall k :: 0 <= k < idx ==> ms[k] in ms[..count];
  }

  /** The second loop of `list_join`: each mode's text, followed by ',' when a node follows it. */
  method WriteModes(sb: StringBuilder, ms: seq<Mode>)
    requires sb.Valid()
    modifies sb, sb.buf
    ensures sb.Valid() && sb.Text() == old(sb.Text()) + Pieces(ms, |ms|)
    ensures sb.buf == old(sb.buf) || fresh(sb.buf)
  {
    ghost var head := sb.Text();
    var k := 0;
    while k < |ms|
      invariant 0 <= k <= |ms| && sb.Valid() && sb.Text() == head + Pieces(ms, k)
      invariant sb.buf == old(sb.buf) || fresh(sb.buf)
    {
      ghost var before := sb.Text();
      sb.WriteEntry(ms[k], k + 1 < |ms|);
      PiecesExtend(head, before, sb.Text(), ms, k);
      k := k + 1;
    }
  }

  /** `deepin_gfxmode_list_join`. */
  method Join(list: ModeList, current: Mode) returns (s: string)
    ensures s == Serialised(list.modes, current)
  {
    var ms := list.modes;
    var idx := FindCurrent(ms, current);
    var sb := new StringBuilder(256);
    sb.WriteString(IntString(idx));
    ghost var t1 := sb.Text();
    sb.WriteChar(',');
    ghost var t2 := sb.Text();
    WriteModes(sb, ms);
    ghost var t3 := sb.Text();
    sb.End();
    s := sb.Text();
    JoinText(idx, ms, current, t1, t2, t3, s);
  }

  /** `grub_cmd_deepin_gfxmode` for the active adapter: the current mode (0x0 when it cannot be queried),
    * the modes the adapter reports in order, and the value given to DEEPIN_GFXMODE. */
  method Command(info: Option<Mode>, reported: seq<Mode>) returns (value: string)
    ensures var current := if info.Some? then info.value else Mode(0, 0);
            value == Serialised(Collect(current, [], reported), current)
  {
    var current := if info.Some? then info.value else Mode(0, 0);
    var list := new ModeList();
    var k := 0;
    while k < |reported|
      invariant 0 <= k <= |reported|
      invariant Collect(current, [], reported) == Collect(current, list.modes, reported[k..])
    {
      assert reported[k..][0] == reported[k] && reported[k..][1..] == reported[k + 1..];
      list.Hook(current, reported[k]);
      k := k + 1;
    }
    assert reported[k..] == [];
    value := Join(list, current);
    list.Free();
  }

  datatype Option<T> = None | Some(value: T)
}
