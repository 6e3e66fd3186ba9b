/**
 * The PCI device enumerator: scans the entries of the PCI `devices`
 * directory, reads and trims each entry's vendor, class and device files, and
 * keeps the NVIDIA display controllers (VGA-compatible or 3D controller). It
 * returns two sequences built side by side: the bus addresses (the entry
 * directory names) and the device ids.
 */
module GetDevices {
  import opened Results
  import opened Text

  /** PCI vendor id of NVIDIA. */
  const NvidiaVendor := "0x10de"
  /** PCI class code 03 00 00: display controller, VGA-compatible. */
  const VgaControllerClass := "0x030000"
  /** PCI class code 03 02 00: display controller, 3D controller. */
  const ThreeDControllerClass := "0x030200"

  /**
   * One device directory. A None descriptor is a file that could not be read;
   * a None name is a directory name that is not valid Unicode.
   */
  datatype DeviceDir = DeviceDir(name: Option<string>, vendor: Option<string>,
                                 classCode: Option<string>, device: Option<string>)

  /** One step of the directory iterator: an entry, or a failure to read it. */
  datatype DirEntry = EntryUnreadable | Entry(dir: DeviceDir)

  /** The `devices` directory: unreadable, or its entries in iteration order. */
  datatype Listing = DirUnreadable | Listing(entries: seq<DirEntry>)

  datatype EnumError = DevicesDirUnreadable | DeviceEntryUnreadable

  /** A descriptor file's contents, trimmed; an unreadable file reads as "". */
  function Descriptor(file: Option<string>): string
  {
    match file
    case Some(text) => Trim(text)
    case None => ""
  }

  /** The selection test: NVIDIA vendor and a display-controller class. */
  predicate IsNvidiaGpu(d: DeviceDir)
  {
    var vendor := Descriptor(d.vendor);
    var classCode := Descriptor(d.classCode);
    vendor == NvidiaVendor && (classCode == VgaControllerClass || classCode == ThreeDControllerClass)
  }

  predicate SelectedEntry(e: DirEntry)
  {
    e.Entry? && IsNvidiaGpu(e.dir)
  }

  /** The selected devices, in scan order (the reference view of the scan). */
  function Selected(es: seq<DirEntry>): seq<DeviceDir>
  {
    if es == [] then []
    else Selected(es[..|es| - 1]) + (if SelectedEntry(es[|es| - 1]) then [es[|es| - 1].dir] else [])
  }

  /** The bus addresses the scan pushes: the names of the selected entries that have one. */
  function Bdfs(es: seq<DirEntry>): seq<string>
  {
    if es == [] then []
    else
      var e := es[|es| - 1];
      Bdfs(es[..|es| - 1]) + (if SelectedEntry(e) && e.dir.name.Some? then [e.dir.name.value] else [])
  }

  /** The device ids the scan pushes: one per selected entry. */
  function DeviceIds(es: seq<DirEntry>): seq<string>
  {
    if es == [] then []
    else
      var e := es[|es| - 1];
      DeviceIds(es[..|es| - 1]) + (if SelectedEntry(e) then [Descriptor(e.dir.device)] else [])
  }

  /** What a scan of the listing yields. */
  function Enumerate(listing: Listing): Result<(seq<string>, seq<string>), EnumError>
  {
    match listing
    case DirUnreadable => Err(DevicesDirUnreadable)
    case Listing(es) =>
      if EntryUnreadable in es then Err(DeviceEntryUnreadable) else Ok((Bdfs(es), DeviceIds(es)))
  }

  /**
   * Scans the device directory: the result is what `Enumerate` says, so it
   * fails exactly when the directory or one of its entries cannot be read
   * (`EnumerationCases`).
   */
  method GetGpuDevices(listing: Listing) returns (r: Result<(seq<string>, seq<string>), EnumError>)
    ensures r == Enumerate(listing)
  {
    if listing.DirUnreadable? {
      return Err(DevicesDirUnreadable);
    }
    var es := listing.entries;
    var bdfs: seq<string> := [];
    var ids: seq<string> := [];
    var i := 0;
    while i < |es|
      invariant 0 <= i <= |es|
      invariant EntryUnreadable !in es[..i]
      invariant bdfs == Bdfs(es[..i]) && ids == DeviceIds(es[..i])
    {
      ScanStep(es, i);
      if es[i].EntryUnreadable? {
        return Err(DeviceEntryUnreadable);
      }
      var d := es[i].dir;
      if IsNvidiaGpu(d) {
        if d.name.Some? {
          bdfs := bdfs + [d.name.value];
        }
        var deviceId := Descriptor(d.device);
        ids := ids + [deviceId];
      }
      i := i + 1;
    }
    assert es[..i] == es;
    r := Ok((bdfs, ids));
  }

  /**
   * The scan fails exactly when the directory or one of its entries cannot be
   * read; otherwise it returns the bus addresses and the device ids of the
   * selected entries.
   */
  lemma EnumerationCases(listing: Listing)
    ensures listing.DirUnreadable? ==> Enumerate(listing) == Err(DevicesDirUnreadable)
    ensures listing.Listing? ==>
              (Enumerate(listing).Err? <==> exists i :: 0 <= i < |listing.entries| && listing.entries[i].EntryUnreadable?)
    ensures listing.Listing? && Enumerate(listing).Err? ==> Enumerate(listing).error == DeviceEntryUnreadable
    ensures Enumerate(listing).Ok? ==> Enumerate(listing).value == (Bdfs(listing.entries), DeviceIds(listing.entries))
  {
  }

  /** Scanning one more entry appends that entry's contribution to each output. */
  lemma ScanStep(es: seq<DirEntry>, i: nat)
    requires i < |es|
    ensures Bdfs(es[..i + 1]) ==
            Bdfs(es[..i]) + (if SelectedEntry(es[i]) && es[i].dir.name.Some? then [es[i].dir.name.value] else [])
    ensures DeviceIds(es[..i + 1]) ==
            DeviceIds(es[..i]) + (if SelectedEntry(es[i]) then [Descriptor(es[i].dir.device)] else [])
  {
    assert es[..i + 1][..i] == es[..i];
  }

  // ----- properties of the scan -----

  /** Selection keeps scan order: the selection of two parts is the two selections, one after the other. */
  lemma {:induction false} SelectedConcat(a: seq<DirEntry>, b: seq<DirEntry>)
    ensures Selected(a + b) == Selected(a) + Selected(b)
  {
    if b == [] {
      assert a + b == a;
    } else {
      var ab := a + b;
      assert ab[..|ab| - 1] == a + b[..|b| - 1];
      assert ab[|ab| - 1] == b[|b| - 1];
      SelectedConcat(a, b[..|b| - 1]);
    }
  }

  /** A device is in the selection exactly when its entry was scanned and passes the filter. */
  lemma {:induction false} SelectedMembers(es: seq<DirEntry>, d: DeviceDir)
    ensures d in Selected(es) <==> Entry(d) in es && IsNvidiaGpu(d)
  {
    if es != [] {
      var init := es[..|es| - 1];
      assert es == init + [es[|es| - 1]];
      SelectedMembers(init, d);
    }
  }

  /** The k-th device id is the trimmed device file of the k-th selected device. */
  lemma {:induction false} DeviceIdsFollowSelection(es: seq<DirEntry>)
    ensures |DeviceIds(es)| == |Selected(es)|
    ensures forall k :: 0 <= k < |DeviceIds(es)| ==> DeviceIds(es)[k] == Descriptor(Selected(es)[k].device)
  {
    if es != [] {
      DeviceIdsFollowSelection(es[..|es| - 1]);
    }
  }

  /** When every selected device has a valid name, the k-th bus address is the k-th selected device's name. */
  lemma {:induction false} BdfsFollowSelection(es: seq<DirEntry>)
    requires forall d :: d in Selected(es) ==> d.name.Some?
    ensures |Bdfs(es)| == |Selected(es)|
    ensures forall k :: 0 <= k < |Bdfs(es)| ==> Bdfs(es)[k] == Selected(es)[k].name.value
  {
    if es != [] {
      var init := es[..|es| - 1];
      SelectedConcat(init, [es[|es| - 1]]);
      assert init + [es[|es| - 1]] == es;
      BdfsFollowSelection(init);
    }
  }

  /** The valid names of a sequence of devices, in order; devices without one are skipped. */
  function NamesOf(ds: seq<DeviceDir>): seq<string>
  {
    if ds == [] then []
    else
      var d := ds[|ds| - 1];
      NamesOf(ds[..|ds| - 1]) + (if d.name.Some? then [d.name.value] else [])
  }

  /**
   * In every case the bus addresses are the valid names of the selected
   * devices, in scan order: a selected device without a valid name is skipped
   * and the scan goes on with the devices after it.
   */
  lemma {:induction false} BdfsAreSelectedNames(es: seq<DirEntry>)
    ensures Bdfs(es) == NamesOf(Selected(es))
  {
    if es != [] {
      var init := es[..|es| - 1];
      var e := es[|es| - 1];
      BdfsAreSelectedNames(init);
      if SelectedEntry(e) {
        var ds := Selected(init) + [e.dir];
        assert ds[..|ds| - 1] == Selected(init);
      } else {
        assert Selected(es) == Selected(init);
      }
    }
  }

  /** Devices after an unnamed one still contribute: the names of a concatenation are the names of each part. */
  lemma {:induction false} NamesOfConcat(a: seq<DeviceDir>, b: seq<DeviceDir>)
    ensures NamesOf(a + b) == NamesOf(a) + NamesOf(b)
  {
    if b == [] {
      assert a + b == a;
    } else {
      var ab := a + b;
      assert ab[..|ab| - 1] == a + b[..|b| - 1];
      assert ab[|ab| - 1] == b[|b| - 1];
      NamesOfConcat(a, b[..|b| - 1]);
    }
  }

  /**
   * When every selected device has a valid name, the two outputs have the same
   * length and index k of both describes the same selected device.
   */
  lemma OutputsAligned(es: seq<DirEntry>)
    requires forall d :: d in Selected(es) ==> d.name.Some?
    ensures |Bdfs(es)| == |DeviceIds(es)| == |Selected(es)|
    ensures forall k :: 0 <= k < |Bdfs(es)| ==>
              Bdfs(es)[k] == Selected(es)[k].name.value && DeviceIds(es)[k] == Descriptor(Selected(es)[k].device)
  {
    BdfsFollowSelection(es);
    DeviceIdsFollowSelection(es);
  }

  /** There are never more bus addresses than device ids. */
  lemma {:induction false} BdfsNoLongerThanIds(es: seq<DirEntry>)
    ensures |Bdfs(es)| <= |DeviceIds(es)|
  {
    if es != [] {
      BdfsNoLongerThanIds(es[..|es| - 1]);
    }
  }

  /**
   * The id push is unconditional but the bus-address push is not: one selected
   * device without a valid name leaves the outputs of different lengths, and
   * the index alignment is lost.
   */
  lemma {:induction false} UnnamedGpuBreaksAlignment(es: seq<DirEntry>, k: nat)
    requires k < |es| && SelectedEntry(es[k]) && es[k].dir.name.None?
    ensures |Bdfs(es)| < |DeviceIds(es)|
  {
    var init := es[..|es| - 1];
    if k == |es| - 1 {
      BdfsNoLongerThanIds(init);
    } else {
      assert init[k] == es[k];
      UnnamedGpuBreaksAlignment(init, k);
    }
  }

  /** An unreadable vendor or class file reads as "", which never passes the filter. */
  lemma UnreadableDescriptorNeverSelected(d: DeviceDir)
    requires d.vendor.None? || d.classCode.None?
    ensures !IsNvidiaGpu(d)
  {
  }

  /** Descriptor files are compared after trimming, so the newline that sysfs appends does not matter. */
  lemma TrimmedDescriptorsSelected(name: Option<string>, device: Option<string>)
    ensures IsNvidiaGpu(DeviceDir(name, Some(NvidiaVendor + "\n"), Some(VgaControllerClass + "\n"), device))
    ensures IsNvidiaGpu(DeviceDir(name, Some(NvidiaVendor + "\n"), Some(ThreeDControllerClass + "\n"), device))
  {
    TrimPadded([], NvidiaVendor, "\n");
    assert [] + NvidiaVendor + "\n" == NvidiaVendor + "\n";
    TrimPadded([], VgaControllerClass, "\n");
    assert [] + VgaControllerClass + "\n" == VgaControllerClass + "\n";
    TrimPadded([], ThreeDControllerClass, "\n");
    assert [] + ThreeDControllerClass + "\n" == ThreeDControllerClass + "\n";
  }

  /** Without a selected entry the scan returns two empty sequences. */
  lemma {:induction false} NoMatchEmpty(es: seq<DirEntry>)
    requires forall i :: 0 <= i < |es| ==> !SelectedEntry(es[i])
    ensures Bdfs(es) == [] && DeviceIds(es) == []
  {
    if es != [] {
      NoMatchEmpty(es[..|es| - 1]);
    }
  }

  // ----- the scenario of the unit test: two NVIDIA GPUs and one other device -----

  function MockListing(): Listing
  {
    Listing([
      Entry(DeviceDir(Some("0000:01:00.0"), Some("0x10de"), Some("0x030000"), Some("1234"))),
      Entry(DeviceDir(Some("0000:02:00.0"), Some("0x10de"), Some("0x030200"), Some("5678"))),
      Entry(DeviceDir(Some("0000:03:00.0"), Some("0x1234"), Some("0x567800"), Some("abcd")))])
  }

  /** The filter keeps the two NVIDIA devices of the mock bus and drops the third. */
  lemma MockSelection()
    ensures SelectedEntry(MockListing().entries[0]) && SelectedEntry(MockListing().entries[1])
    ensures !SelectedEntry(MockListing().entries[2])
  {
    TrimUnpadded("0x10de");
    TrimUnpadded("0x030000");
    TrimUnpadded("0x030200");
    TrimUnpadded("0x1234");
  }

  /** A scan over two selected entries and one that is not selected reports the first two, in order. */
  lemma ScanOfThree(e0: DirEntry, e1: DirEntry, e2: DirEntry)
    requires SelectedEntry(e0) && SelectedEntry(e1) && !SelectedEntry(e2)
    requires e0.dir.name.Some? && e1.dir.name.Some?
    ensures Bdfs([e0, e1, e2]) == [e0.dir.name.value, e1.dir.name.value]
    ensures DeviceIds([e0, e1, e2]) == [Descriptor(e0.dir.device), Descriptor(e1.dir.device)]
  {
    var es := [e0, e1, e2];
    ScanStep(es, 0);
    ScanStep(es, 1);
    ScanStep(es, 2);
    assert es[..0] == [] && es[..3] == es;
  }

  lemma MockPciScan()
    ensures Bdfs(MockListing().entries) == ["0000:01:00.0", "0000:02:00.0"]
    ensures DeviceIds(MockListing().entries) == ["1234", "5678"]
  {
    var es := MockListing().entries;
    MockSelection();
    TrimUnpadded("1234");
    TrimUnpadded("5678");
    ScanOfThree(es[0], es[1], es[2]);
    assert es == [es[0], es[1], es[2]];
  }

}
