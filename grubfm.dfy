/** The GRUB file manager's menu construction: one menu entry per device, or, for a directory, a Back entry
  * followed by one entry per directory item. Entries are values; the GRUB menu, device and file-system calls
  * that produce and consume them are parameters (an entry's kind, whether a file opens, its size text, a
  * device's probe result). */
module GrubFm {

  datatype Option<T> = None | Some(value: T)

  datatype MenuItem = MenuItem(title: string, icon: string, src: string)

  /** A directory item as the file system's directory hook reports it. */
  datatype DirEntry = DirEntry(name: string, isDir: bool, opens: bool, sizeText: string)

  /** What probing a device's file system yields: its driver name, its label and its UUID. The label is None
    * when the driver has no `fs_label` or `fs_label` fails, which leaves the C code's `label` NULL; the UUID
    * is None in the same two cases. */
  datatype FsInfo = FsInfo(fsName: string, volumeLabel: Option<string>, uuid: Option<string>)

  /** What the device hook does with one device: adds no entry, adds one, or hands a NULL label to
    * `grub_strlen`, which dereferences it (a fault). */
  datatype DeviceOutcome = Unlisted | Listed(item: MenuItem) | NullLabel

  /** `%-12s`: s left-justified in a field of 12, never truncated. */
  function PadRight(s: string, w: nat): (r: string)
    decreases w - |s|
    ensures |r| == if |s| >= w then |s| else w
    ensures r[..|s|] == s && forall k :: |s| <= k < |r| ==> r[k] == ' '
  {
    if |s| >= w then s else PadRight(s + " ", w)
  }

  /** The index of the last occurrence of c in s. */
  function LastIndex(s: string, c: char): (r: Option<nat>)
    ensures r.None? <==> c !in s
    ensures r.Some? ==> r.value < |s| && s[r.value] == c && forall m :: r.value < m < |s| ==> s[m] != c
  {
    if |s| == 0 then None
    else if s[|s| - 1] == c then Some(|s| - 1)
    else
      var r := LastIndex(s[..|s| - 1], c);
      assert forall m :: 0 <= m < |s| - 1 ==> s[..|s| - 1][m] == s[m];
      r
  }

  /** The index of the first occurrence of c in s. */
  function FirstIndex(s: string, c: char): (r: Option<nat>)
    ensures r.None? <==> c !in s
    ensures r.Some? ==> r.value < |s| && s[r.value] == c && forall m :: 0 <= m < r.value ==> s[m] != c
  {
    if |s| == 0 then None
    else if s[0] == c then Some(0)
    else
      var r := FirstIndex(s[1..], c);
      if r.None? then None else Some(r.value + 1)
  }

  /** The path of a directory item: one '/' between the directory and the name, none added when the directory
    * already ends in one. */
  function ChildPath(dir: string, name: string): (p: string)
    requires |dir| > 0
    ensures |dir| + |name| <= |p| <= |dir| + |name| + 1
    ensures p[..|dir|] == dir && p[|p| - |name|..] == name && p[|p| - |name| - 1] == '/'
  {
    if dir[|dir| - 1] == '/' then dir + name else dir + "/" + name
  }

  /** The menu entry for a directory item, if any: none for "." and "..", none for a file that cannot be
    * opened; a directory re-enters the file manager at its path, a file is shown with `echo`. */
  function EntryItem(dir: string, e: DirEntry): (r: Option<MenuItem>)
    requires |dir| > 0
    ensures r.None? <==> e.name == "." || e.name == ".." || (!e.isDir && !e.opens)
    ensures r.Some? && e.isDir ==> r.value.icon == "dir" && r.value.src == "grubfm \"" + ChildPath(dir, e.name) + "/\""
    ensures r.Some? && !e.isDir ==> r.value.icon == "file" && r.value.src == "echo \"" + ChildPath(dir, e.name) + "\"\ngetkey"
  {
    if e.name == "." || e.name == ".." then None
    else
      var p := ChildPath(dir, e.name);
      if e.isDir then Some(MenuItem(PadRight("DIR", 12) + " [" + e.name + "]", "dir", "grubfm \"" + p + "/\""))
      else if !e.opens then None
      else Some(MenuItem(PadRight(e.sizeText, 12) + " " + e.name, "file", "echo \"" + p + "\"\ngetkey"))
  }

  /** The entries for the items the directory hook reports, in order. */
  function Items(dir: string, entries: seq<DirEntry>): (r: seq<MenuItem>)
    requires |dir| > 0
    ensures |r| <= |entries|
  {
    if |entries| == 0 then []
    else
      var rest := Items(dir, entries[1..]);
      match EntryItem(dir, entries[0])
      case None => rest
      case Some(item) => [item] + rest
  }

  predicate IsDot(e: DirEntry)
  {
    e.name == "." || e.name == ".."
  }

  function WithoutDots(entries: seq<DirEntry>): (r: seq<DirEntry>)
    ensures forall k :: 0 <= k < |r| ==> !IsDot(r[k])
    ensures |r| <= |entries|
  {
    if |entries| == 0 then []
    else if IsDot(entries[0]) then WithoutDots(entries[1..])
    else [entries[0]] + WithoutDots(entries[1..])
  }

  /** "." and ".." produce no menu entry, wherever they come in the listing. */
  lemma {:induction false} DotsMakeNoItems(dir: string, entries: seq<DirEntry>)
    requires |dir| > 0
    ensures Items(dir, entries) == Items(dir, WithoutDots(entries))
  {
    if |entries| > 0 {
      DotsMakeNoItems(dir, entries[1..]);
      if !IsDot(entries[0]) {
        var w := [entries[0]] + WithoutDots(entries[1..]);
        assert w[0] == entries[0] && w[1..] == WithoutDots(entries[1..]);
      }
    }
  }

  /** Every directory item whose name is not a dot yields an entry. */
  lemma {:induction false} DirectoriesAllListed(dir: string, entries: seq<DirEntry>)
    requires |dir| > 0
    requires forall k :: 0 <= k < |entries| ==> entries[k].isDir && !IsDot(entries[k])
    ensures |Items(dir, entries)| == |entries|
  {
    if |entries| > 0 {
      DirectoriesAllListed(dir, entries[1..]);
    }
  }

  /** The parent directory the Back entry leads to: the copy of the path is cut at its last '/', then at the
    * last '/' before that, or emptied when there is none. A path without any '/' has no Back target (the C
    * code writes through the null pointer `grub_strrchr` returns). */
  function Parent(dir: string): (r: Option<string>)
    ensures r.Some? <==> '/' in dir
    ensures r.Some? ==> |r.value| < |dir| && r.value == dir[..|r.value|]
    ensures r.Some? && r.value != "" ==>
              var i := LastIndex(dir, '/').value;
              |r.value| < i && dir[|r.value|] == '/' && forall m :: |r.value| < m < i ==> dir[m] != '/'
    ensures r.Some? && r.value == "" ==> forall m :: 0 < m < LastIndex(dir, '/').value ==> dir[m] != '/'
  {
    match LastIndex(dir, '/')
    case None => None
    case Some(i) =>
      var cut := dir[..i];
      match LastIndex(cut, '/')
      case None => Some("")
      case Some(j) => Some(cut[..j])
  }

  /** The command of the Back entry. */
  function BackSource(dir: string): (r: Option<string>)
    ensures r.Some? <==> '/' in dir
  {
    match Parent(dir)
    case None => None
    case Some(p) => if |p| > 0 then Some("grubfm \"" + p + "/\"") else Some("grubfm")
  }

  /** The last c of a + [c] + b, when b holds none, is the one after a. */
  lemma {:induction false} LastIndexBefore(a: string, c: char, b: string)
    requires c !in b
    ensures LastIndex(a + [c] + b, c) == Some(|a|)
  {
    var x := a + [c] + b;
    if |b| > 0 {
      assert x[|x| - 1] == b[|b| - 1];
      assert x[..|x| - 1] == a + [c] + b[..|b| - 1];
      LastIndexBefore(a, c, b[..|b| - 1]);
    } else {
      assert x[|x| - 1] == c;
    }
  }

  /** The parent of `shown/name/` is `shown` when the name holds no '/'. */
  lemma ParentOfChild(shown: string, name: string)
    requires '/' !in name
    ensures Parent(shown + "/" + name + "/") == Some(shown)
  {
    var cut := shown + "/" + name;
    var child := cut + "/";
    assert child == cut + "/" + "";
    LastIndexBefore(cut, '/', "");
    assert child[..|cut|] == cut;
    LastIndexBefore(shown, '/', name);
    assert cut[..|shown|] == shown;
  }

  /** Back from a directory entered through its menu entry lists the directory the entry was shown in. */
  lemma BackFromChild(dir: string, name: string)
    requires |dir| > 0 && '/' !in name
    ensures var shown := if dir[|dir| - 1] == '/' then dir[..|dir| - 1] else dir;
            BackSource(ChildPath(dir, name) + "/") == Some(if |shown| > 0 then "grubfm \"" + shown + "/\"" else "grubfm")
  {
    if dir[|dir| - 1] == '/' {
      var shown := dir[..|dir| - 1];
      assert dir == shown + "/";
      assert ChildPath(dir, name) + "/" == shown + "/" + name + "/";
      ParentOfChild(shown, name);
    } else {
      assert ChildPath(dir, name) + "/" == dir + "/" + name + "/";
      ParentOfChild(dir, name);
    }
  }

  /** The path inside the device: the text after the first ')', or the whole name when there is none. */
  function DevicePath(dir: string): (p: string)
    ensures ')' in dir ==> |p| < |dir| && ')' !in dir[..|dir| - |p| - 1] && dir[|dir| - |p| - 1] == ')' && dir[|dir| - |p|..] == p
    ensures ')' !in dir ==> p == dir
  {
    match FirstIndex(dir, ')')
    case None => dir
    case Some(k) =>
      assert forall m :: 0 <= m < k ==> dir[..k][m] == dir[m];
      dir[k + 1..]
  }

  /** The menu for a directory: the Back entry, then, when the device opens, the path inside it is not empty
    * and a file system was recognised, one entry per listed item. */
  function DirectoryMenu(dir: string, deviceOpens: bool, fsFound: bool, entries: seq<DirEntry>): (r: Option<seq<MenuItem>>)
    ensures r.Some? <==> '/' in dir
    ensures r.Some? ==> |r.value| >= 1 && r.value[0].title == "Back" && r.value[0].src == BackSource(dir).value
    ensures r.Some? && (!deviceOpens || !fsFound || DevicePath(dir) == "") ==> |r.value| == 1
  {
    match BackSource(dir)
    case None => None
    case Some(back) =>
      var head := [MenuItem("Back", "go-previous", back)];
      if !deviceOpens || DevicePath(dir) == "" || !fsFound then Some(head)
      else Some(head + Items(dir, entries))
  }

  /** The devices not offered for browsing. */
  predicate Skipped(name: string)
  {
    name == "memdisk" || name == "proc" || name == "python"
  }

  /** The entry for a device: none for a skipped one or one whose file system is not recognised, a fault
    * when the label is NULL, and otherwise the file manager entered at the device's root, titled with the
    * device, its label ("NO LABEL" when empty), the driver and the UUID. */
  function DeviceItem(name: string, probe: Option<FsInfo>): (r: DeviceOutcome)
    ensures r.Unlisted? <==> Skipped(name) || probe.None?
    ensures r.NullLabel? <==> !Skipped(name) && probe.Some? && probe.value.volumeLabel.None?
    ensures r.Listed? ==> r.item.icon == "hdd" && r.item.src == "grubfm \"(" + name + ")/\""
    ensures r.Listed? ==>
              var text := probe.value.volumeLabel.value;
              var shown := if |text| > 0 then text else "NO LABEL";
              |r.item.title| >= |name| + |shown| + 5 &&
              r.item.title[..|name| + |shown| + 5] == "(" + name + ") [" + shown + "]"
  {
    if Skipped(name) || probe.None? then Unlisted
    else
      var fs := probe.value;
      match fs.volumeLabel
      case None => NullLabel
      case Some(text) =>
        var shownLabel := if |text| > 0 then text else "NO LABEL";
        var uuid := if fs.uuid.Some? then fs.uuid.value else "";
        var title := "(" + name + ") [" + shownLabel + "] " + fs.fsName + " " + uuid;
        assert title[..|name| + |shownLabel| + 5] == "(" + name + ") [" + shownLabel + "]";
        Listed(MenuItem(title, "hdd", "grubfm \"(" + name + ")/\""))
  }

  /** The device menu, in the order `grub_device_iterate` visits the devices; None when some device's NULL
    * label faults. */
  function DeviceMenu(devices: seq<(string, Option<FsInfo>)>): (r: Option<seq<MenuItem>>)
    ensures r.None? <==> exists k :: 0 <= k < |devices| && DeviceItem(devices[k].0, devices[k].1).NullLabel?
    ensures r.Some? ==> |r.value| <= |devices|
    ensures r.Some? ==> forall k :: 0 <= k < |r.value| ==> r.value[k].icon == "hdd"
  {
    if |devices| == 0 then Some([])
    else
      var rest := DeviceMenu(devices[1..]);
      assert forall k :: 1 <= k < |devices| ==> devices[1..][k - 1] == devices[k];
      match DeviceItem(devices[0].0, devices[0].1)
      case NullLabel => None
      case Unlisted => rest
      case Listed(item) => if rest.None? then None else Some([item] + rest.value)
  }

  /** No skipped device appears in the device menu. */
  lemma {:induction false} SkippedNeverListed(devices: seq<(string, Option<FsInfo>)>, name: string)
    requires Skipped(name)
    ensures DeviceMenu(devices).Some? ==>
              forall k :: 0 <= k < |DeviceMenu(devices).value| ==> DeviceMenu(devices).value[k].src != "grubfm \"(" + name + ")/\""
  {
    if |devices| > 0 {
      SkippedNeverListed(devices[1..], name);
      var d := devices[0];
      var t := "grubfm \"(" + name + ")/\"";
      assert t[9..|t| - 3] == name;
      if !Skipped(d.0) && d.1.Some? && d.1.value.volumeLabel.Some? {
        var s := "grubfm \"(" + d.0 + ")/\"";
        assert s[9..|s| - 3] == d.0;
        assert s != t;
      }
    }
  }
}
