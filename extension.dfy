/**
 * The chain extension through which the contract hands programs to the host
 * runtime, as an explicit port. The port does nothing but record, in order,
 * the calls the contract makes on it; what the host does with them is only
 * described, by functions over that trace, to the extent the contract
 * relies on it: `prepare_execute` stages a program, `execute` runs the
 * staged one.
 */
module Extension {
  import opened XcmTypes

  /** One call the contract issues on the extension. */
  datatype ExtensionCall = PrepareExecute(xcm: VersionedXcm) | Execute

  /** The host port: every call made on it, oldest first. */
  class XcmExtension {
    var calls: seq<ExtensionCall>

    constructor ()
      ensures calls == []
    {
      calls := [];
    }

    /** Stages a program for local execution without running it. */
    method PrepareExecute(xcm: VersionedXcm)
      modifies this
      ensures calls == old(calls) + [ExtensionCall.PrepareExecute(xcm)]
    {
      calls := calls + [ExtensionCall.PrepareExecute(xcm)];
    }

    /** Runs the program staged last. */
    method Execute()
      modifies this
      ensures calls == old(calls) + [ExtensionCall.Execute]
    {
      calls := calls + [ExtensionCall.Execute];
    }
  }

  /**
   * The program waiting to be run after a trace: the one the last call
   * prepared, if the last call was a `prepare_execute`; an `execute`
   * consumes it.
   */
  function Staged(calls: seq<ExtensionCall>): (r: Option<VersionedXcm>)
    ensures r.Some? <==> calls != [] && calls[|calls| - 1].PrepareExecute?
  {
    if calls != [] && calls[|calls| - 1].PrepareExecute? then Some(calls[|calls| - 1].xcm) else None
  }

  /**
   * The programs the host has been asked to run, in order: each `execute`
   * runs the program staged just before it, and runs nothing when none is.
   */
  function Executed(calls: seq<ExtensionCall>): (r: seq<VersionedXcm>)
    ensures |r| <= |calls| / 2
  {
    if calls == [] then []
    else
      var init := calls[..|calls| - 1];
      match calls[|calls| - 1]
      case PrepareExecute(_) => Executed(init)
      case Execute =>
        match Staged(init)
        case Some(x) => Executed(init) + [x]
        case None => Executed(init)
  }

  /**
   * Issuing `prepare_execute(x)` and then `execute()` runs exactly `x`, after
   * whatever ran before, and leaves nothing staged.
   */
  lemma {:induction false} PrepareThenExecuteRuns(calls: seq<ExtensionCall>, x: VersionedXcm)
    ensures Executed(calls + [PrepareExecute(x), Execute]) == Executed(calls) + [x]
    ensures Staged(calls + [PrepareExecute(x), Execute]) == None
  {
    var prepared := calls + [PrepareExecute(x)];
    assert (calls + [PrepareExecute(x), Execute]) == prepared + [Execute];
    assert (prepared + [Execute])[..|prepared|] == prepared;
    assert prepared[..|calls|] == calls;
    assert Staged(prepared) == Some(x);
  }

  /** An `execute` with nothing staged runs nothing. */
  lemma ExecuteUnstagedRunsNothing(calls: seq<ExtensionCall>)
    requires Staged(calls) == None
    ensures Executed(calls + [Execute]) == Executed(calls)
  {
  }
}
