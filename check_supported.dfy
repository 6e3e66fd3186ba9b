/**
 * The support gate: the discovered device ids are checked against the lines
 * of the allow-list file. A missing file means "not supported"; a file that
 * exists but cannot be opened is an error.
 */
module CheckSupported {
  import opened Results
  import opened Text

  /** The allow-list file as the gate finds it. */
  datatype AllowList = Missing | Unopenable | Present(content: string)

  datatype GateError = AllowListOpenFailed

  /** The early-return search over the ids: true when every id is one of the lines. */
  function AllListed(ids: seq<string>, lines: seq<string>): (r: bool)
    ensures r <==> forall i :: 0 <= i < |ids| ==> ids[i] in lines
  {
    if ids == [] then true
    else if ids[0] !in lines then false
    else AllListed(ids[1..], lines)
  }

  /**
   * The gate. A missing file gives false, a file that cannot be opened an
   * error, and otherwise the result is true exactly when every id equals
   * some whole line of the file.
   */
  function CheckGpuSupported(ids: seq<string>, file: AllowList): (r: Result<bool, GateError>)
    ensures file.Missing? ==> r == Ok(false)
    ensures file.Unopenable? ==> r == Err(AllowListOpenFailed)
    ensures file.Present? ==>
              r.Ok? && (r.value <==> forall i :: 0 <= i < |ids| ==> ids[i] in Lines(file.content))
  {
    match file
    case Missing => Ok(false)
    case Unopenable => Err(AllowListOpenFailed)
    case Present(content) => Ok(AllListed(ids, Lines(content)))
  }

  // ----- properties of the gate -----

  /** The first id that is not listed decides: whatever follows it is never looked at. */
  lemma {:induction false} FirstUnlistedDecides(ids: seq<string>, lines: seq<string>, k: nat, later: seq<string>)
    requires k < |ids| && ids[k] !in lines
    ensures !AllListed(ids[..k + 1] + later, lines)
  {
    assert (ids[..k + 1] + later)[k] == ids[k];
  }

  /** Only the set of lines matters: their order and repetitions do not. */
  lemma LineOrderIrrelevant(ids: seq<string>, lines1: seq<string>, lines2: seq<string>)
    requires forall l :: l in lines1 <==> l in lines2
    ensures AllListed(ids, lines1) == AllListed(ids, lines2)
  {
  }

  /** Dropping ids keeps a supported set supported. */
  lemma FewerIdsStaySupported(ids: seq<string>, fewer: seq<string>, file: AllowList)
    requires forall id :: id in fewer ==> id in ids
    requires CheckGpuSupported(ids, file) == Ok(true)
    ensures CheckGpuSupported(fewer, file) == Ok(true)
  {
    if file.Present? {
      forall i | 0 <= i < |fewer|
        ensures fewer[i] in Lines(file.content)
      {
        assert fewer[i] in ids;
      }
    }
  }

  /** No ids and an existing file: supported. */
  lemma NoIdsSupported(content: string)
    ensures CheckGpuSupported([], Present(content)) == Ok(true)
  {
  }

  /** Lines are compared whole: a line with a trailing blank does not list the id without it. */
  lemma NoTrimmingOfLines(id: string)
    requires IsLine(id) && IsWord(id)
    ensures CheckGpuSupported([id], Present(JoinLines([id + " "]))) == Ok(false)
  {
    assert IsLine(id + " ") by {
      assert (id + " ")[|id + " "| - 1] == ' ';
    }
    LinesOfJoinLines([id + " "]);
    assert |id + " "| != |id|;
  }

  /** A line ending in "\r\n" is read without its '\r'. */
  lemma CrLfLinesMatch(id: string)
    requires IsLine(id)
    ensures CheckGpuSupported([id], Present(id + "\r\n")) == Ok(true)
  {
    var s := id + "\r\n";
    assert s == (id + "\r") + ['\n'] + "";
    assert '\n' !in id + "\r";
    IndexOfFirst(id + "\r", '\n', "");
    assert s[..|id| + 1] == id + "\r";
    assert s[|id| + 2..] == [];
  }

  /** A last line without '\n' still lists its id: the final line of the file is read even when unterminated. */
  lemma UnterminatedLastLineCounts(first: string, id: string)
    requires '\n' !in first && '\n' !in id && id != []
    ensures CheckGpuSupported([id], Present(first + "\n" + id)) == Ok(true)
  {
    LinesCutAtNewline(first, id);
    LastLineKept(id);
    assert id in Lines(first + "\n" + id);
  }

  /** The allow list holds only "1234" and the ids are "1234" and "5678": not supported. */
  lemma PartlyListedScenario()
    ensures CheckGpuSupported(["1234", "5678"], Present("1234\n")) == Ok(false)
  {
    LinesOfJoinLines(["1234"]);
    assert JoinLines(["1234"]) == "1234\n";
  }
}
