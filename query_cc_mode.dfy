/**
 * The confidential-computing mode resolver: the GPU tool is run once per bus
 * address, its standard output is classified as "on" when it holds the marker
 * "CC mode is on" and "off" otherwise, and all GPUs must agree. The first GPU
 * sets the consensus; the first one that disagrees ends the query with an error.
 */
module QueryCcMode {
  import opened Results
  import opened Text

  /** The marker the GPU tool prints when confidential computing is on. */
  const CcOnMarker := "CC mode is on"

  datatype CcMode = On | Off
  {
    /** The name the program reports. */
    function Name(): string
    {
      if On? then "on" else "off"
    }
  }

  /** One run of the GPU tool for a bus address: it could not be started, or it ran and printed `stdout`. */
  datatype ToolRun = SpawnFailed | Ran(stdout: string)

  datatype CcError =
    | ToolSpawnFailed(bdf: string)
    | Inconsistent(bdf: string, found: CcMode, expected: CcMode)
    | NoGpusFound

  /** The mode a tool output reports. */
  function Classify(stdout: string): CcMode
  {
    if Contains(stdout, CcOnMarker) then On else Off
  }

  /** The query from the current consensus `mode` on: the fold that the loop computes. */
  function Resolve(bdfs: seq<string>, tool: string -> ToolRun, mode: Option<CcMode>): Result<CcMode, CcError>
    decreases |bdfs|
  {
    if bdfs == [] then
      (if mode.Some? then Ok(mode.value) else Err(NoGpusFound))
    else
      match tool(bdfs[0])
      case SpawnFailed => Err(ToolSpawnFailed(bdfs[0]))
      case Ran(stdout) =>
        var current := Classify(stdout);
        if mode.Some? && mode.value != current then Err(Inconsistent(bdfs[0], current, mode.value))
        else Resolve(bdfs[1..], tool, Some(current))
  }

  /**
   * Queries every GPU in order and returns the common mode; the result is the
   * fold `Resolve` started without a consensus, and no GPUs is an error.
   */
  method QueryGpuCcMode(bdfs: seq<string>, tool: string -> ToolRun) returns (r: Result<CcMode, CcError>)
    ensures r == Resolve(bdfs, tool, None)
    ensures bdfs == [] ==> r == Err(NoGpusFound)
  {
    var mode: Option<CcMode> := None;
    var i := 0;
    while i < |bdfs|
      invariant 0 <= i <= |bdfs|
      invariant i == 0 <==> mode.None?
      invariant Resolve(bdfs, tool, None) == Resolve(bdfs[i..], tool, mode)
    {
      assert bdfs[i..][0] == bdfs[i] && bdfs[i..][1..] == bdfs[i + 1..];
      var bdf := bdfs[i];
      var output := tool(bdf);
      if output.SpawnFailed? {
        return Err(ToolSpawnFailed(bdf));
      }
      var current := Classify(output.stdout);
      if mode.Some? && mode.value != current {
        return Err(Inconsistent(bdf, current, mode.value));
      }
      mode := Some(current);
      i := i + 1;
    }
    r := if mode.Some? then Ok(mode.value) else Err(NoGpusFound);
  }

  // ----- properties of the query -----

  /** The tool ran for every GPU and reported mode `m` for each. */
  predicate Uniform(bdfs: seq<string>, tool: string -> ToolRun, m: CcMode)
  {
    forall i :: 0 <= i < |bdfs| ==> tool(bdfs[i]).Ran? && Classify(tool(bdfs[i]).stdout) == m
  }

  /** Once a consensus is set it is the only possible result: it never changes. */
  lemma {:induction false} ConsensusNeverChanges(bdfs: seq<string>, tool: string -> ToolRun, m: CcMode)
    ensures Resolve(bdfs, tool, Some(m)).Ok? ==> Resolve(bdfs, tool, Some(m)) == Ok(m)
    ensures Resolve(bdfs, tool, Some(m)).Ok? <==> Uniform(bdfs, tool, m)
  {
    if bdfs != [] {
      ConsensusNeverChanges(bdfs[1..], tool, m);
      assert forall i :: 1 <= i < |bdfs| ==> bdfs[i] == bdfs[1..][i - 1];
    }
  }

  /** The query succeeds with mode m exactly when there is a GPU and every GPU reports m. */
  lemma ResolveOkIffUniform(bdfs: seq<string>, tool: string -> ToolRun, m: CcMode)
    ensures Resolve(bdfs, tool, None) == Ok(m) <==> bdfs != [] && Uniform(bdfs, tool, m)
  {
    if bdfs != [] && tool(bdfs[0]).Ran? {
      var first := Classify(tool(bdfs[0]).stdout);
      ConsensusNeverChanges(bdfs[1..], tool, first);
      assert forall i :: 1 <= i < |bdfs| ==> bdfs[i] == bdfs[1..][i - 1];
    }
  }

  /** The GPUs before index k ran the tool and all reported mode m. */
  predicate AgreeBefore(bdfs: seq<string>, tool: string -> ToolRun, k: nat, m: CcMode)
    requires k <= |bdfs|
  {
    forall i :: 0 <= i < k ==> tool(bdfs[i]).Ran? && Classify(tool(bdfs[i]).stdout) == m
  }

  /**
   * The first GPU whose mode differs from the consensus ends the query with an
   * error that names its bus address, its mode and the expected mode; the GPUs
   * after it are never queried, so the result does not depend on them.
   */
  lemma {:induction false} FirstDisagreementReported(bdfs: seq<string>, tool: string -> ToolRun, k: nat,
                                                    m: CcMode, later: seq<string>)
    requires 0 < k < |bdfs| && AgreeBefore(bdfs, tool, k, m)
    requires tool(bdfs[k]).Ran? && Classify(tool(bdfs[k]).stdout) != m
    ensures Resolve(bdfs[..k + 1] + later, tool, None) ==
            Err(Inconsistent(bdfs[k], Classify(tool(bdfs[k]).stdout), m))
  {
    var s := bdfs[..k + 1] + later;
    assert s[0] == bdfs[0] && tool(bdfs[0]).Ran?;
    DisagreementFrom(s[1..], tool, k - 1, m);
  }

  lemma {:induction false} DisagreementFrom(s: seq<string>, tool: string -> ToolRun, k: nat, m: CcMode)
    requires k < |s| && AgreeBefore(s, tool, k, m)
    requires tool(s[k]).Ran? && Classify(tool(s[k]).stdout) != m
    ensures Resolve(s, tool, Some(m)) == Err(Inconsistent(s[k], Classify(tool(s[k]).stdout), m))
  {
    if k > 0 {
      assert AgreeBefore(s[1..], tool, k - 1, m) by {
        assert forall i :: 0 <= i < k - 1 ==> s[1..][i] == s[i + 1];
      }
      DisagreementFrom(s[1..], tool, k - 1, m);
    }
  }

  /** A tool that cannot be started for the first GPU not yet agreed on ends the query with an error naming that GPU. */
  lemma {:induction false} SpawnFailureReported(s: seq<string>, tool: string -> ToolRun, k: nat, m: CcMode)
    requires k < |s| && AgreeBefore(s, tool, k, m) && tool(s[k]).SpawnFailed?
    ensures Resolve(s, tool, Some(m)) == Err(ToolSpawnFailed(s[k]))
  {
    if k > 0 {
      assert AgreeBefore(s[1..], tool, k - 1, m) by {
        assert forall i :: 0 <= i < k - 1 ==> s[1..][i] == s[i + 1];
      }
      SpawnFailureReported(s[1..], tool, k - 1, m);
    }
  }

  /**
   * From the start of the query: when the GPUs before index k ran and agreed
   * and the tool cannot be started for GPU k, the query fails naming GPU k,
   * whatever follows it; k == 0 is a failure on the very first GPU.
   */
  lemma {:induction false} FirstSpawnFailureReported(bdfs: seq<string>, tool: string -> ToolRun, k: nat,
                                                    m: CcMode, later: seq<string>)
    requires k < |bdfs| && AgreeBefore(bdfs, tool, k, m) && tool(bdfs[k]).SpawnFailed?
    ensures Resolve(bdfs[..k + 1] + later, tool, None) == Err(ToolSpawnFailed(bdfs[k]))
  {
    var s := bdfs[..k + 1] + later;
    assert s[0] == bdfs[0];
    if k > 0 {
      assert AgreeBefore(s[1..], tool, k - 1, m) by {
        assert forall i :: 0 <= i < k - 1 ==> s[1..][i] == bdfs[i + 1];
      }
      assert s[1..][k - 1] == bdfs[k];
      SpawnFailureReported(s[1..], tool, k - 1, m);
    }
  }

  /** An inconsistency error names a queried GPU whose mode really differs from the consensus. */
  lemma {:induction false} InconsistencyIsGenuine(bdfs: seq<string>, tool: string -> ToolRun, mode: Option<CcMode>,
                                                 b: string, f: CcMode, e: CcMode)
    requires Resolve(bdfs, tool, mode) == Err(Inconsistent(b, f, e))
    ensures b in bdfs && f != e && tool(b).Ran? && Classify(tool(b).stdout) == f
  {
    var current := Classify(tool(bdfs[0]).stdout);
    if !(mode.Some? && mode.value != current) {
      InconsistencyIsGenuine(bdfs[1..], tool, Some(current), b, f, e);
    }
  }

  // ----- two-GPU scenarios -----

  lemma MarkerClassification()
    ensures Classify("CC mode is on") == On
    ensures Classify("CC mode is off") == Off
  {
    assert "CC mode is on" == [] + CcOnMarker + [];
    ContainsInfix([], CcOnMarker, []);
    assert CcOnMarker[12] == 'n';
    AbsentCharRulesOut("CC mode is off", CcOnMarker, 'n');
  }

  /** Two GPUs that both report "on" give "on". */
  lemma TwoGpusOn(a: string, b: string, tool: string -> ToolRun)
    requires tool(a) == Ran("CC mode is on") && tool(b) == Ran("CC mode is on")
    ensures Resolve([a, b], tool, None) == Ok(On)
  {
    MarkerClassification();
    assert [a, b][1..] == [b] && [b][1..] == [];
    assert Resolve([b], tool, Some(On)) == Resolve([], tool, Some(On)) == Ok(On);
  }

  /** "on" for the first GPU and "off" for the second is an inconsistency naming the second GPU. */
  lemma OnThenOffInconsistent(a: string, b: string, tool: string -> ToolRun)
    requires tool(a) == Ran("CC mode is on") && tool(b) == Ran("CC mode is off")
    ensures Resolve([a, b], tool, None) == Err(Inconsistent(b, Off, On))
  {
    MarkerClassification();
    assert [a, b][1..] == [b];
  }
}
