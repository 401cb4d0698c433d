/**
 * The naming and sizing logic of `device_handler`: suffix stripping, the
 * lookup of mapped devices, the choice of a new device file's number, the
 * free-space check over mount points, and the space given to each node by
 * the automatic device creation. File-system queries are inputs.
 */
module DeviceHandler {
  import opened Wrappers
  import opened PyStr
  import opened AtomicWriter

  /** The device naming the configuration defines: the device prefix and
      the data and meta suffixes. */
  datatype DevNaming = DevNaming(devPrefix: string, dataSuffix: string, metaSuffix: string)

  // ----- short names -----

  /** `name[:-len(suffix)]`; an empty suffix gives `name[:-0]`, which is
      empty. */
  function Unsuffixed(name: string, suffix: string): string
    requires EndsWith(name, suffix)
  {
    if |suffix| == 0 then "" else name[..|name| - |suffix|]
  }

  /** `get_short_name`: the data suffix is removed if the name ends with
      it, else the meta suffix if it ends with that. */
  function ShortName(name: string, n: DevNaming): (r: string)
    ensures |r| <= |name|
    ensures EndsWith(name, n.dataSuffix) && n.dataSuffix != "" ==> r + n.dataSuffix == name
    ensures !EndsWith(name, n.dataSuffix) && EndsWith(name, n.metaSuffix) && n.metaSuffix != "" ==>
              r + n.metaSuffix == name
    ensures !EndsWith(name, n.dataSuffix) && !EndsWith(name, n.metaSuffix) ==> r == name
    ensures n.dataSuffix == "" ==> r == ""
    ensures !EndsWith(name, n.dataSuffix) && n.metaSuffix == "" ==> r == ""
  {
    if EndsWith(name, n.dataSuffix) then
      assert name == name[..|name| - |n.dataSuffix|] + n.dataSuffix;
      Unsuffixed(name, n.dataSuffix)
    else if EndsWith(name, n.metaSuffix) then
      assert name == name[..|name| - |n.metaSuffix|] + n.metaSuffix;
      Unsuffixed(name, n.metaSuffix)
    else name
  }

  /** The short name of a data device file is its base. */
  lemma ShortNameOfData(s: string, n: DevNaming)
    requires n.dataSuffix != ""
    ensures ShortName(s + n.dataSuffix, n) == s
  {
    var t := s + n.dataSuffix;
    assert t[|t| - |n.dataSuffix|..] == n.dataSuffix;
    assert t[..|t| - |n.dataSuffix|] == s;
  }

  /** The short name of a meta device file is its base, unless the name
      also ends with the data suffix. */
  lemma ShortNameOfMeta(s: string, n: DevNaming)
    requires n.metaSuffix != "" && !EndsWith(s + n.metaSuffix, n.dataSuffix)
    ensures ShortName(s + n.metaSuffix, n) == s
  {
    var t := s + n.metaSuffix;
    assert t[|t| - |n.metaSuffix|..] == n.metaSuffix;
    assert t[..|t| - |n.metaSuffix|] == s;
  }

  // ----- mapped devices -----

  /** A disk section: its devices and, if it has one, its `mapping` of
      device names to host paths. */
  datatype Disk = Disk(devices: seq<string>, mapping: Option<seq<(string, string)>>)

  /** Some mapping entry names the device, both taken without suffix. */
  predicate Mapped(dev: string, disk: Disk, n: DevNaming) {
    disk.mapping.Some? &&
    exists i :: 0 <= i < |disk.mapping.value| &&
      ShortName(disk.mapping.value[i].0, n) == ShortName(Basename(dev), n)
  }

  /** `is_mapped_device`: the mapping is searched in its order and the
      first entry with the device's short name answers True. */
  method IsMappedDevice(dev: string, disk: Disk, n: DevNaming) returns (r: bool)
    ensures r == Mapped(dev, disk, n)
  {
    var name := ShortName(Basename(dev), n);
    if disk.mapping.Some? {
      var mapping := disk.mapping.value;
      for i := 0 to |mapping|
        invariant forall j :: 0 <= j < i ==> ShortName(mapping[j].0, n) != name
      {
        var (mdev, _) := mapping[i];
        if ShortName(mdev, n) == name {
          return true;
        }
      }
    }
    return false;
  }

  /** A disk without a mapping maps nothing. */
  lemma NoMappingMapsNothing(dev: string, disk: Disk, n: DevNaming)
    requires disk.mapping.None?
    ensures !Mapped(dev, disk, n)
  {
  }

  /** A data device file is mapped by an entry for its meta file: the
      suffixes do not matter. */
  lemma MappedAcrossSuffixes(s: string, disk: Disk, n: DevNaming, i: nat, path: string)
    requires n.dataSuffix != "" && n.metaSuffix != ""
    requires '/' !in s && '/' !in n.dataSuffix
    requires !EndsWith(s + n.metaSuffix, n.dataSuffix)
    requires disk.mapping.Some? && i < |disk.mapping.value|
    requires disk.mapping.value[i] == (s + n.metaSuffix, path)
    ensures Mapped(s + n.dataSuffix, disk, n)
  {
    assert '/' !in s + n.dataSuffix;
    BasenameAppend([], s + n.dataSuffix);
    assert [] + (s + n.dataSuffix) == s + n.dataSuffix;
    ShortNameOfData(s, n);
    ShortNameOfMeta(s, n);
  }

  // ----- device files -----

  /** `is_device_file`: the name holds the device prefix, anywhere in it;
      a name that starts with the prefix is one. */
  predicate IsDeviceFile(name: string, n: DevNaming): (r: bool)
    ensures StartsWith(name, n.devPrefix) ==> r
    ensures r ==> |n.devPrefix| <= |name|
  {
    assert StartsWith(name, n.devPrefix) ==> OccursAt(name, n.devPrefix, 0);
    Contains(name, n.devPrefix)
  }

  /** `is_data_device_file`: the name holds the prefix and the data suffix,
      so it is a device file. */
  predicate IsDataDeviceFile(name: string, n: DevNaming): (r: bool)
    ensures r ==> IsDeviceFile(name, n)
    ensures r ==> |n.dataSuffix| <= |name|
  {
    Contains(name, n.devPrefix) && Contains(name, n.dataSuffix)
  }

  /** `is_meta_device_file`: the name holds the prefix and the meta suffix,
      so it is a device file. */
  predicate IsMetaDeviceFile(name: string, n: DevNaming): (r: bool)
    ensures r ==> IsDeviceFile(name, n)
    ensures r ==> |n.metaSuffix| <= |name|
  {
    Contains(name, n.devPrefix) && Contains(name, n.metaSuffix)
  }

  /** A name that starts with the device prefix is a device file. */
  lemma PrefixedIsDevice(n: DevNaming, rest: string)
    ensures IsDeviceFile(n.devPrefix + rest, n)
  {
    assert OccursAt(n.devPrefix + rest, n.devPrefix, 0);
  }

  // ----- new device file names -----

  /** `int(dev.split(".")[1])`: IndexError without a `.`, ValueError when
      the second piece is no integer. */
  function DevNumber(dev: string): (r: Result<int>)
    ensures r.Err? ==> r.message == "IndexError" || r.message == "ValueError"
  {
    var parts := Split(dev, '.');
    if |parts| < 2 then Err("IndexError")
    else if PyInt(parts[1]).None? then Err("ValueError")
    else Ok(PyInt(parts[1]).value)
  }

  /** `int()` keeps an information separator, so "d.\x1c5" has no number. */
  lemma DevNumberKeepsInfoSeparator(dev: string)
    requires dev == "d.\U{1c}5"
    ensures DevNumber(dev) == Err("ValueError")
  {
    SplitPrefixNumber("d", "\U{1c}5");
    assert "d" + "." + "\U{1c}5" == dev;
    PyIntKeepsInfoSeparator();
  }

  /** The numbers of the devices in order, or the first device's error. */
  function DevNumbers(devs: seq<string>): (r: Result<seq<int>>)
    ensures r.Ok? <==> forall i :: 0 <= i < |devs| ==> DevNumber(devs[i]).Ok?
    ensures r.Ok? ==> |r.value| == |devs| && forall i :: 0 <= i < |devs| ==> r.value[i] == DevNumber(devs[i]).value
  {
    if devs == [] then Ok([])
    else if DevNumber(devs[0]).Err? then Err(DevNumber(devs[0]).message)
    else
      var rest := DevNumbers(devs[1..]);
      assert forall i :: 1 <= i < |devs| ==> devs[i] == devs[1..][i - 1];
      if rest.Err? then rest else Ok([DevNumber(devs[0]).value] + rest.value)
  }

  /** `max` of a non-empty list. */
  function Max(xs: seq<int>): (m: int)
    requires |xs| > 0
    ensures forall i :: 0 <= i < |xs| ==> xs[i] <= m
    ensures exists i :: 0 <= i < |xs| && xs[i] == m
  {
    if |xs| == 1 then xs[0]
    else
      var m := Max(xs[1..]);
      assert forall i :: 1 <= i < |xs| ==> xs[i] == xs[1..][i - 1];
      if xs[0] >= m then xs[0] else m
  }

  /** The number `get_file_name` gives a new device: 1 for a node without
      devices, else one more than the highest existing number. It exceeds
      every existing device's number and is the highest plus one; it is
      refused exactly when some device has no number. */
  function NextNumber(devs: seq<string>): (r: Result<int>)
    ensures r.Err? <==> exists i :: 0 <= i < |devs| && DevNumber(devs[i]).Err?
    ensures r.Ok? ==> forall i :: 0 <= i < |devs| ==> DevNumber(devs[i]).Ok? && DevNumber(devs[i]).value < r.value
    ensures r.Ok? && devs != [] ==> exists i :: 0 <= i < |devs| && DevNumber(devs[i]).value + 1 == r.value
    ensures devs == [] ==> r == Ok(1)
  {
    if devs == [] then Ok(1)
    else
      var ns := DevNumbers(devs);
      if ns.Err? then Err(ns.message)
      else
        assert forall i :: 0 <= i < |devs| ==> DevNumber(devs[i]).value == ns.value[i];
        Ok(Max(ns.value) + 1)
  }

  /** Every device of the node, disk after disk. */
  function AllDevices(disks: seq<Disk>): seq<string> {
    if disks == [] then [] else AllDevices(disks[..|disks| - 1]) + disks[|disks| - 1].devices
  }

  /** The files of a listing that are not device files. */
  function Foreign(files: seq<string>, n: DevNaming): (r: seq<string>)
    ensures forall f :: f in r <==> f in files && !IsDeviceFile(f, n)
  {
    if files == [] then []
    else (if IsDeviceFile(files[0], n) then [] else [files[0]]) + Foreign(files[1..], n)
  }

  /** `os.path.join(d, name)`: an absolute name replaces the directory. */
  function OsJoin(d: string, name: string): string {
    if |name| > 0 && name[0] == '/' then name else JoinPath(d, name)
  }

  /** What `get_file_name` returns: with `checkForeign`, a directory that
      cannot be listed (`listing` is the result of `os.listdir`) or holds a
      file other than a device file is refused; then the new device's path
      is the directory joined with the prefix and the next number. */
  function FileName(storageDir: string, disks: seq<Disk>, n: DevNaming, checkForeign: bool,
                    listing: Result<seq<string>>): (r: Result<string>)
    ensures r.Err? <==>
              (checkForeign && (listing.Err? || exists f :: f in listing.value && !IsDeviceFile(f, n))) ||
              exists i :: 0 <= i < |AllDevices(disks)| && DevNumber(AllDevices(disks)[i]).Err?
    ensures r.Ok? ==> (NextNumber(AllDevices(disks)).Ok? &&
              r.value == OsJoin(storageDir, n.devPrefix + IntToString(NextNumber(AllDevices(disks)).value)))
  {
    assert checkForeign && listing.Ok? && Foreign(listing.value, n) != [] ==> Foreign(listing.value, n)[0] in Foreign(listing.value, n);
    if checkForeign && listing.Err? then Err("Error reading directory")
    else if checkForeign && Foreign(listing.value, n) != [] then Err("Found foreign files")
    else
      var num := NextNumber(AllDevices(disks));
      if num.Err? then Err(num.message) else Ok(OsJoin(storageDir, n.devPrefix + IntToString(num.value)))
  }

  /** `get_file_name`, collecting the devices in its nested loops. */
  method GetFileName(storageDir: string, disks: seq<Disk>, n: DevNaming, checkForeign: bool,
                     listing: Result<seq<string>>) returns (r: Result<string>)
    ensures r == FileName(storageDir, disks, n, checkForeign, listing)
  {
    if checkForeign {
      if listing.Err? {
        return Err("Error reading directory");
      }
      if |Foreign(listing.value, n)| > 0 {
        return Err("Found foreign files");
      }
    }
    var devices: seq<string> := [];
    for i := 0 to |disks|
      invariant devices == AllDevices(disks[..i])
    {
      assert disks[..i + 1][..i] == disks[..i];
      var disk := disks[i];
      ghost var before := devices;
      for j := 0 to |disk.devices|
        invariant devices == before + disk.devices[..j]
      {
        devices := devices + [disk.devices[j]];
        assert disk.devices[..j + 1] == disk.devices[..j] + [disk.devices[j]];
      }
      assert disk.devices[..|disk.devices|] == disk.devices;
    }
    assert disks[..|disks|] == disks;
    var num := NextNumber(devices);
    if num.Err? {
      return Err(num.message);
    }
    return Ok(OsJoin(storageDir, n.devPrefix + IntToString(num.value)));
  }

  /** `str(k)` holds neither a `.` nor a `/`. */
  lemma IntTextPlain(k: int)
    ensures '.' !in IntToString(k) && '/' !in IntToString(k)
  {
    var m: nat := if k >= 0 then k else -k;
    var d := NatToString(m);
    assert forall i :: 0 <= i < |d| ==> IsDigit(d[i]);
    if k < 0 {
      assert forall c :: c in IntToString(k) ==> c == '-' || c in d;
    }
  }

  lemma SplitPrefixNumber(p: string, d: string)
    requires '.' !in p && '.' !in d
    ensures Split(p + "." + d, '.') == [p, d]
  {
    SplitAt(p, '.', d);
    assert p + "." + d == p + ['.'] + d;
  }

  /** With a prefix `p.` the new file's name reads back as its number. */
  lemma NewNameNumber(p: string, k: int)
    requires '.' !in p
    ensures DevNumber(p + "." + IntToString(k)) == Ok(k)
  {
    var d := IntToString(k);
    IntTextPlain(k);
    SplitPrefixNumber(p, d);
    PyIntOfText(k);
    DevNumberOfParts(p + "." + d, p, d);
  }

  lemma PyIntOfText(k: int)
    ensures PyInt(IntToString(k)) == Some(k)
  {
    var t := IntToString(k);
    assert "" + t + "" == t;
    PyIntOfIntToString(k, "", "");
  }

  lemma DevNumberOfParts(dev: string, a: string, b: string)
    requires Split(dev, '.') == [a, b]
    ensures PyInt(b).Some? ==> DevNumber(dev) == Ok(PyInt(b).value)
  {
  }

  /** With a prefix `p.`, the new device's name is a device file whose
      number no existing device has, so it is a new name. */
  lemma NewDeviceIsNew(storageDir: string, disks: seq<Disk>, p: string, n: DevNaming, checkForeign: bool,
                       listing: Result<seq<string>>)
    requires n.devPrefix == p + "." && '.' !in p && '/' !in p
    requires FileName(storageDir, disks, n, checkForeign, listing).Ok?
    ensures var name := n.devPrefix + IntToString(NextNumber(AllDevices(disks)).value);
            && Basename(FileName(storageDir, disks, n, checkForeign, listing).value) == name
            && IsDeviceFile(name, n)
            && name !in AllDevices(disks)
  {
    var devs := AllDevices(disks);
    var k := NextNumber(devs).value;
    var d := IntToString(k);
    var name := n.devPrefix + d;
    IntTextPlain(k);
    assert name == p + "." + d;
    NewNameNumber(p, k);
    assert name[0] != '/' by { assert name[0] in name; }
    BasenameOfJoin(storageDir, name);
    PrefixedIsDevice(n, d);
    NotAnExistingName(devs, name, k);
  }

  /** A name whose number exceeds every existing device's number is none
      of them. */
  lemma NotAnExistingName(devs: seq<string>, name: string, k: int)
    requires NextNumber(devs) == Ok(k) && DevNumber(name) == Ok(k)
    ensures name !in devs
  {
    forall i | 0 <= i < |devs|
      ensures devs[i] != name
    {
      assert DevNumber(devs[i]).value < k;
    }
  }

  // ----- free space -----

  /** The devices in `devs` on mount point `m`, in their order. */
  function Group(devs: seq<string>, mountOf: string -> string, m: string): seq<string> {
    if devs == [] then []
    else Group(devs[..|devs| - 1], mountOf, m) + (if mountOf(devs[|devs| - 1]) == m then [devs[|devs| - 1]] else [])
  }

  /** The mount points of `devs`, each once, in the order they first occur:
      the keys of the ordered dictionary `mount_devices`. */
  function Mounts(devs: seq<string>, mountOf: string -> string): seq<string> {
    if devs == [] then []
    else
      var ms := Mounts(devs[..|devs| - 1], mountOf);
      if mountOf(devs[|devs| - 1]) in ms then ms else ms + [mountOf(devs[|devs| - 1])]
  }

  /** `sum` of a size over some devices. */
  function SizeSum(devs: seq<string>, size: string -> int): int {
    if devs == [] then 0 else SizeSum(devs[..|devs| - 1], size) + size(devs[|devs| - 1])
  }

  /** The allocated bytes of a file: `st_blocks * 512`. */
  function Allocated(blocks: string -> int): string -> int {
    d => blocks(d) * 512
  }

  /** A mount point's free space covers what its sparse files may still
      claim: their apparent size less what they already occupy. */
  predicate Fits(devs: seq<string>, mountOf: string -> string, free: string -> int,
                 size: string -> int, blocks: string -> int, m: string)
  {
    var g := Group(devs, mountOf, m);
    free(m) >= SizeSum(g, size) - SizeSum(g, Allocated(blocks))
  }

  /** Every mount point of the devices has room for its files. */
  predicate Sufficient(devs: seq<string>, mountOf: string -> string, free: string -> int,
                       size: string -> int, blocks: string -> int)
  {
    forall m :: m in Mounts(devs, mountOf) ==> Fits(devs, mountOf, free, size, blocks, m)
  }

  lemma {:induction false} GroupMeaning(devs: seq<string>, mountOf: string -> string, m: string)
    ensures forall d :: d in Group(devs, mountOf, m) <==> d in devs && mountOf(d) == m
  {
    if devs != [] {
      var init := devs[..|devs| - 1];
      GroupMeaning(init, mountOf, m);
      assert devs == init + [devs[|devs| - 1]];
    }
  }

  lemma {:induction false} MountsMeaning(devs: seq<string>, mountOf: string -> string)
    ensures forall m :: m in Mounts(devs, mountOf) <==> exists d :: d in devs && mountOf(d) == m
  {
    if devs != [] {
      var init := devs[..|devs| - 1];
      MountsMeaning(init, mountOf);
      assert devs == init + [devs[|devs| - 1]];
    }
  }

  lemma GroupStep(devs: seq<string>, i: nat, mountOf: string -> string, m: string)
    requires i < |devs|
    ensures Group(devs[..i + 1], mountOf, m) ==
            Group(devs[..i], mountOf, m) + (if mountOf(devs[i]) == m then [devs[i]] else [])
    ensures Mounts(devs[..i + 1], mountOf) ==
            (var ms := Mounts(devs[..i], mountOf); if mountOf(devs[i]) in ms then ms else ms + [mountOf(devs[i])])
  {
    assert devs[..i + 1][..i] == devs[..i];
  }

  /** A mount point no device is on has an empty group. */
  lemma {:induction false} GroupEmpty(devs: seq<string>, mountOf: string -> string, m: string)
    requires m !in Mounts(devs, mountOf)
    ensures Group(devs, mountOf, m) == []
  {
    if devs != [] {
      GroupEmpty(devs[..|devs| - 1], mountOf, m);
    }
  }

  /** Every device lies in the group of its own mount point and in no
      other group, and every group belongs to a mount point of `devs`. */
  lemma OneGroupEach(devs: seq<string>, mountOf: string -> string, d: string, m: string)
    requires d in devs
    ensures d in Group(devs, mountOf, mountOf(d))
    ensures m != mountOf(d) ==> d !in Group(devs, mountOf, m)
    ensures mountOf(d) in Mounts(devs, mountOf)
  {
    GroupMeaning(devs, mountOf, mountOf(d));
    GroupMeaning(devs, mountOf, m);
    MountsMeaning(devs, mountOf);
  }

  /** The check holds exactly when the mount point of every device has room. */
  lemma SufficientMeans(devs: seq<string>, mountOf: string -> string, free: string -> int,
                        size: string -> int, blocks: string -> int)
    ensures Sufficient(devs, mountOf, free, size, blocks) <==>
            forall i :: 0 <= i < |devs| ==> Fits(devs, mountOf, free, size, blocks, mountOf(devs[i]))
  {
    MountsMeaning(devs, mountOf);
    if forall i :: 0 <= i < |devs| ==> Fits(devs, mountOf, free, size, blocks, mountOf(devs[i])) {
      forall m | m in Mounts(devs, mountOf)
        ensures Fits(devs, mountOf, free, size, blocks, m)
      {
        var d :| d in devs && mountOf(d) == m;
        var i :| 0 <= i < |devs| && devs[i] == d;
      }
    }
  }

  /** No element occurs twice. */
  predicate NoDuplicates(s: seq<string>) {
    |s| == 0 || (s[0] !in s[1..] && NoDuplicates(s[1..]))
  }

  /** The grouping loop of `check_free_space`: each device is appended to
      the list of its mount point; `order` is the mount points in the order
      of first appearance. */
  method GroupByMount(devices: seq<string>, mountOf: string -> string)
    returns (mountDevices: map<string, seq<string>>, order: seq<string>)
    ensures order == Mounts(devices, mountOf)
    ensures forall m :: m in mountDevices <==> m in order
    ensures forall m :: m in mountDevices ==> mountDevices[m] == Group(devices, mountOf, m)
  {
    mountDevices := map[];
    order := [];
    for i := 0 to |devices|
      invariant order == Mounts(devices[..i], mountOf)
      invariant forall m :: m in mountDevices <==> m in order
      invariant forall m :: m in mountDevices ==> mountDevices[m] == Group(devices[..i], mountOf, m)
    {
      var dev := devices[i];
      var mountPoint := mountOf(dev);
      if mountPoint !in mountDevices {
        GroupEmpty(devices[..i], mountOf, mountPoint);
        mountDevices := mountDevices[mountPoint := []];
        order := order + [mountPoint];
      }
      mountDevices := mountDevices[mountPoint := mountDevices[mountPoint] + [dev]];
      GroupStep(devices, i, mountOf, mountPoint);
      forall m | m in mountDevices
        ensures mountDevices[m] == Group(devices[..i + 1], mountOf, m)
      {
        GroupStep(devices, i, mountOf, m);
      }
    }
    assert devices[..|devices|] == devices;
  }

  /** `check_free_space` over the collected device files, `devices` being
      the set in its iteration order; `mountOf`, `free`, `size` and
      `blocks` stand for `get_mount_point`, `get_free_space`,
      `os.path.getsize` and `st_blocks`. Only file devices can be checked.
      As the elements of a set, the devices are distinct. */
  method CheckFreeSpace(deviceType: string, devices: seq<string>, mountOf: string -> string,
                        free: string -> int, size: string -> int, blocks: string -> int)
    returns (r: Result<bool>)
    requires NoDuplicates(devices)
    ensures deviceType != "file" ==> r == Err("Space-check is only supported for file-devices!")
    ensures deviceType == "file" ==> r == Ok(Sufficient(devices, mountOf, free, size, blocks))
  {
    if deviceType != "file" {
      return Err("Space-check is only supported for file-devices!");
    }
    var mountDevices, order := GroupByMount(devices, mountOf);
    var sufficient := AllFit(devices, mountOf, free, size, blocks, mountDevices, order);
    assert forall m :: m in order ==> exists j :: 0 <= j < |order| && order[j] == m;
    return Ok(sufficient);
  }

  /** The summing loop of `check_free_space`: false as soon as one mount
      point's free space is short of what its files may still claim. */
  method AllFit(devices: seq<string>, mountOf: string -> string, free: string -> int,
                size: string -> int, blocks: string -> int,
                mountDevices: map<string, seq<string>>, order: seq<string>)
    returns (sufficient: bool)
    requires forall m :: m in order ==> m in mountDevices
    requires forall m :: m in mountDevices ==> mountDevices[m] == Group(devices, mountOf, m)
    ensures sufficient <==> forall j :: 0 <= j < |order| ==> Fits(devices, mountOf, free, size, blocks, order[j])
  {
    sufficient := true;
    for k := 0 to |order|
      invariant sufficient <==> forall j :: 0 <= j < k ==> Fits(devices, mountOf, free, size, blocks, order[j])
    {
      var mountPoint := order[k];
      var partFree := free(mountPoint);
      var filesVirtSize := SizeSum(mountDevices[mountPoint], size);
      var filesPhysSize := SizeSum(mountDevices[mountPoint], Allocated(blocks));
      if partFree < filesVirtSize - filesPhysSize {
        sufficient := false;
      }
    }
  }

  /** The target directory of `create_node_file_devices`: only file
      devices can be created; a non-blank path is used stripped, else the
      node's storage directory under the docker root. */
  function NodeFileDevicesDir(deviceType: string, path: string, dockerRoot: string, dockerVolume: string,
                              storageDir: string): (r: Result<string>)
    ensures r.Err? <==> deviceType != "file"
    ensures r.Ok? && !AllSpace(path) ==> r.value == Strip(path)
    ensures r.Ok? && AllSpace(path) ==> r.value == OsJoin(OsJoin(dockerRoot, dockerVolume), storageDir)
  {
    if deviceType != "file" then Err("Cluster has wrong DeviceType")
    else
      StripBlank(path);
      Ok(if Strip(path) != "" then Strip(path) else OsJoin(OsJoin(dockerRoot, dockerVolume), storageDir))
  }

  /** A text strips to nothing exactly when it is all whitespace. */
  lemma StripBlank(s: string)
    ensures Strip(s) == "" <==> AllSpace(s)
  {
    var k := SpaceRun(s);
    var u := s[k..];
    if AllSpace(s) {
      SpaceRunAppend(s, []);
      assert s + [] == s;
    } else {
      var i :| 0 <= i < |s| && !IsSpace(s[i]);
      assert i >= k by { assert AllSpace(s[..k]); }
      assert u[i - k] == s[i];
      assert !AllSpace(u[0..]);
    }
  }

  // ----- automatic file devices -----

  /** 1024 * 1024 * 1024 bytes. */
  const GiB: int := 1073741824

  /** The free space automatic creation needs outside a container, and the
      default caps on the space it uses outside and inside one. */
  const MinAutoFreeSpace: int := GiB * 10
  const MaxAutoUsedSpace: int := MinAutoFreeSpace * 5
  const MaxAutoInternalUsedSpace: int := GiB * 6
  /** The space left to the docker host per node, and inside a container. */
  const PerNodeReserved: int := GiB * 3
  const AutoInternalReservedSize: int := GiB

  function Min(a: int, b: int): int { if a <= b then a else b }

  /** `max_space`: the one given, else the default cap for where the
      devices are created. */
  function Cap(containerInternal: bool, maxSpace: Option<int>): int {
    if maxSpace.Some? then maxSpace.value
    else if containerInternal then MaxAutoInternalUsedSpace else MaxAutoUsedSpace
  }

  /** The free space minus what is kept back: 1 GiB inside a container,
      3 GiB per node outside one. */
  function Unreserved(containerInternal: bool, rootFree: int, numNodes: int): int {
    if containerInternal then rootFree - AutoInternalReservedSize else rootFree - numNodes * PerNodeReserved
  }

  /** The space automatic creation uses, before its checks: the smaller of
      the cap and the unreserved free space. */
  function Usable(containerInternal: bool, maxSpace: Option<int>, rootFree: int, numNodes: int): (r: int)
    ensures r <= Cap(containerInternal, maxSpace) && r <= Unreserved(containerInternal, rootFree, numNodes)
    ensures r == Cap(containerInternal, maxSpace) || r == Unreserved(containerInternal, rootFree, numNodes)
  {
    var cap := if maxSpace.Some? then maxSpace.value
               else if containerInternal then MaxAutoInternalUsedSpace else MaxAutoUsedSpace;
    if containerInternal then Min(rootFree - AutoInternalReservedSize, cap)
    else Min(rootFree - numNodes * PerNodeReserved, cap)
  }

  /** The bytes each node's device gets in `auto_create_file_devices`.
      `rootFree` is the free space of the root's file system, `numNodes`
      the node count at construction and `nodeDisks` the number of disks of
      each node. The division is Python's floor division, which for a
      positive divisor is Dafny's. */
  function AutoBytesPerNode(containerInternal: bool, maxSpace: Option<int>, rootFree: int, numNodes: int,
                            nodeDisks: seq<nat>): (r: Result<int>)
    ensures r.Ok? <==> (containerInternal || rootFree >= MinAutoFreeSpace) &&
                       (forall i :: 0 <= i < |nodeDisks| ==> nodeDisks[i] == 0) && |nodeDisks| > 0
    ensures r.Ok? ==> r.value * |nodeDisks| <= Usable(containerInternal, maxSpace, rootFree, numNodes) &&
                      Usable(containerInternal, maxSpace, rootFree, numNodes) < (r.value + 1) * |nodeDisks|
  {
    var usable := Usable(containerInternal, maxSpace, rootFree, numNodes);
    if !containerInternal && rootFree < MinAutoFreeSpace then Err("Free space is too small for automatic file-device creation")
    else if exists i :: 0 <= i < |nodeDisks| && nodeDisks[i] > 0 then Err("Devices can't be auto-generated because this cluster alreay has disks!")
    else if |nodeDisks| == 0 then Err("ZeroDivisionError")
    else Ok(FloorShare(usable, |nodeDisks|))
  }

  /** Python's `x // n` for a positive `n`: the largest share that `n`
      times fits in `x`. */
  function FloorShare(x: int, n: int): (q: int)
    requires n > 0
    ensures q * n <= x < (q + 1) * n
  {
    assert x == n * (x / n) + x % n;
    x / n
  }

  /** Outside a container with the default cap, the nodes' devices together
      take at most 50 GiB and leave 3 GiB per node of the free space. */
  lemma AutoHostBounds(rootFree: int, numNodes: int, nodeDisks: seq<nat>)
    requires AutoBytesPerNode(false, None, rootFree, numNodes, nodeDisks).Ok?
    ensures var b := AutoBytesPerNode(false, None, rootFree, numNodes, nodeDisks).value;
            && b * |nodeDisks| <= 50 * GiB
            && b * |nodeDisks| <= rootFree - numNodes * 3 * GiB
  {
  }

  /** Inside a container with the default cap they take at most 6 GiB and
      leave 1 GiB of the free space. */
  lemma AutoInternalBounds(rootFree: int, numNodes: int, nodeDisks: seq<nat>)
    requires AutoBytesPerNode(true, None, rootFree, numNodes, nodeDisks).Ok?
    ensures var b := AutoBytesPerNode(true, None, rootFree, numNodes, nodeDisks).value;
            && b * |nodeDisks| <= 6 * GiB
            && b * |nodeDisks| <= rootFree - GiB
  {
  }
}
