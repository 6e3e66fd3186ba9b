/**
 * The CPU vendor classifier: the lines of /proc/cpuinfo are scanned in order
 * and the first line that matches a rule decides the vendor. Within a line
 * the AMD rule comes first, then Intel, then ARM (implementer code 0x41 on a
 * "CPU implementer" line).
 */
module CpuVendor {
  import opened Results
  import opened Text

  datatype Vendor = Amd | Intel | Arm
  {
    /** The name the program reports. */
    function Name(): string
    {
      match this
      case Amd => "amd"
      case Intel => "intel"
      case Arm => "arm"
    }
  }

  /** One step of the line reader: a line, or a read failure. */
  datatype LineRead = Line(text: string) | LineUnreadable

  /** /proc/cpuinfo: it could not be opened, or it yields these line reads in order. */
  datatype CpuInfo = CpuInfoUnopenable | CpuInfo(lines: seq<LineRead>)

  datatype VendorError = CpuInfoOpenFailed | CpuInfoReadFailed | VendorNotFound

  /** The rules for one line, in the order the program tries them. */
  function ClassifyLine(line: string): Option<Vendor>
  {
    if Contains(line, "AuthenticAMD") then Some(Amd)
    else if Contains(line, "GenuineIntel") then Some(Intel)
    else if Contains(line, "CPU implementer") && Contains(line, "0x41") then Some(Arm)
    else None
  }

  /** The scan: the first line that a rule matches decides; a read failure before it is an error. */
  function ScanLines(lines: seq<LineRead>): Result<Vendor, VendorError>
  {
    if lines == [] then Err(VendorNotFound)
    else match lines[0]
      case LineUnreadable => Err(CpuInfoReadFailed)
      case Line(text) =>
        match ClassifyLine(text)
        case Some(v) => Ok(v)
        case None => ScanLines(lines[1..])
  }

  /** The vendor of the CPU, or why it could not be found; a success is one of "amd", "intel" and "arm". */
  function QueryCpuVendor(info: CpuInfo): (r: Result<Vendor, VendorError>)
    ensures info.CpuInfoUnopenable? ==> r == Err(CpuInfoOpenFailed)
    ensures info.CpuInfo? ==> r == ScanLines(info.lines)
    ensures r.Ok? ==> r.value.Name() in {"amd", "intel", "arm"}
  {
    match info
    case CpuInfoUnopenable => Err(CpuInfoOpenFailed)
    case CpuInfo(lines) => ScanLines(lines)
  }

  // ----- properties of the scan -----

  /** The lines before index k were read and no rule matched them. */
  predicate NoMatchBefore(lines: seq<LineRead>, k: nat)
    requires k <= |lines|
  {
    forall j :: 0 <= j < k ==> lines[j].Line? && ClassifyLine(lines[j].text).None?
  }

  /** The first line that a rule matches, read after lines that match nothing, decides the scan. */
  lemma {:induction false} MatchingLineDecides(lines: seq<LineRead>, v: Vendor, k: nat)
    requires k < |lines| && NoMatchBefore(lines, k)
    requires lines[k].Line? && ClassifyLine(lines[k].text) == Some(v)
    ensures ScanLines(lines) == Ok(v)
  {
    if k > 0 {
      assert NoMatchBefore(lines[1..], k - 1) by {
        assert forall j :: 0 <= j < k - 1 ==> lines[1..][j] == lines[j + 1];
      }
      MatchingLineDecides(lines[1..], v, k - 1);
    }
  }

  /** A scan that returns a vendor found it on a line read after lines that match nothing. */
  lemma {:induction false} ScanFoundOnLine(lines: seq<LineRead>, v: Vendor) returns (k: nat)
    requires ScanLines(lines) == Ok(v)
    ensures k < |lines| && NoMatchBefore(lines, k)
    ensures lines[k].Line? && ClassifyLine(lines[k].text) == Some(v)
  {
    if lines[0].Line? && ClassifyLine(lines[0].text).None? {
      var k' := ScanFoundOnLine(lines[1..], v);
      k := k' + 1;
      assert forall j :: 1 <= j < k ==> lines[j] == lines[1..][j - 1];
    } else {
      k := 0;
    }
  }

  /** The scan returns a vendor exactly when some line matches a rule and every line before it was read without a match; that line's vendor is the result. */
  lemma FirstMatchingLineDecides(lines: seq<LineRead>, v: Vendor)
    ensures ScanLines(lines) == Ok(v) <==>
            exists k :: 0 <= k < |lines| && NoMatchBefore(lines, k) &&
                        lines[k].Line? && ClassifyLine(lines[k].text) == Some(v)
  {
    if ScanLines(lines) == Ok(v) {
      var k := ScanFoundOnLine(lines, v);
    }
    if exists k :: 0 <= k < |lines| && NoMatchBefore(lines, k) &&
                   lines[k].Line? && ClassifyLine(lines[k].text) == Some(v) {
      var k :| 0 <= k < |lines| && NoMatchBefore(lines, k) &&
               lines[k].Line? && ClassifyLine(lines[k].text) == Some(v);
      MatchingLineDecides(lines, v, k);
    }
  }

  /** The scan finds no vendor exactly when every line was read and none matched. */
  lemma {:induction false} NotFoundIffNoMatch(lines: seq<LineRead>)
    ensures ScanLines(lines) == Err(VendorNotFound) <==> NoMatchBefore(lines, |lines|)
  {
    if lines != [] {
      NotFoundIffNoMatch(lines[1..]);
      assert forall j :: 1 <= j < |lines| ==> lines[j] == lines[1..][j - 1];
    }
  }

  /** A line that cannot be read before any match ends the scan with an error. */
  lemma {:induction false} ReadFailureStopsScan(lines: seq<LineRead>, k: nat)
    requires k < |lines| && NoMatchBefore(lines, k) && lines[k].LineUnreadable?
    ensures ScanLines(lines) == Err(CpuInfoReadFailed)
  {
    if k > 0 {
      assert NoMatchBefore(lines[1..], k - 1) by {
        assert forall j :: 0 <= j < k - 1 ==> lines[1..][j] == lines[j + 1];
      }
      ReadFailureStopsScan(lines[1..], k - 1);
    }
  }

  // ----- the rules within one line -----

  /** A line naming both AMD and Intel counts as AMD: the AMD rule is tried first. */
  lemma AmdRuleFirst(a: string, b: string, c: string)
    ensures ClassifyLine(a + "AuthenticAMD" + b + "GenuineIntel" + c) == Some(Amd)
  {
    assert a + "AuthenticAMD" + b + "GenuineIntel" + c == a + "AuthenticAMD" + (b + "GenuineIntel" + c);
    ContainsInfix(a, "AuthenticAMD", b + "GenuineIntel" + c);
  }

  /** A line naming Intel and the ARM implementer code counts as Intel: the Intel rule is tried before the ARM rule. */
  lemma IntelRuleBeforeArm(a: string, b: string, c: string, d: string)
    requires !Contains(a + "GenuineIntel" + b + "CPU implementer" + c + "0x41" + d, "AuthenticAMD")
    ensures ClassifyLine(a + "GenuineIntel" + b + "CPU implementer" + c + "0x41" + d) == Some(Intel)
  {
    assert a + "GenuineIntel" + b + "CPU implementer" + c + "0x41" + d
        == a + "GenuineIntel" + (b + "CPU implementer" + c + "0x41" + d);
    ContainsInfix(a, "GenuineIntel", b + "CPU implementer" + c + "0x41" + d);
  }

  /**
   * The ARM rule needs the implementer label and the code 0x41 on the same
   * line: split over two lines they match nothing, joined on one line they
   * give ARM.
   */
  lemma ArmRuleNeedsOneLine(l1: string, l2: string)
    requires Contains(l1, "CPU implementer") && !Contains(l1, "0x41")
    requires Contains(l2, "0x41") && !Contains(l2, "CPU implementer")
    requires !Contains(l1 + l2, "AuthenticAMD") && !Contains(l1 + l2, "GenuineIntel")
    ensures ScanLines([Line(l1), Line(l2)]) == Err(VendorNotFound)
    ensures ScanLines([Line(l1 + l2)]) == Ok(Arm)
  {
    ContainsInConcat(l1, l2, "AuthenticAMD");
    ContainsInConcat(l1, l2, "GenuineIntel");
    ContainsInConcat(l1, l2, "CPU implementer");
    ContainsInConcat(l1, l2, "0x41");
    assert ClassifyLine(l1).None? && ClassifyLine(l2).None?;
    var lines := [Line(l1), Line(l2)];
    assert lines[1..] == [Line(l2)] && lines[1..][1..] == [];
    assert ScanLines([Line(l2)]) == ScanLines([]);
    assert [Line(l1 + l2)][1..] == [];
  }
}
