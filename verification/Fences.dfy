/** The durable fatal fence: a cell on its own volume with two-phase retirement. */
module Fences {
  import opened Wrappers

  datatype FenceRecord = Raised(reason: string) | Acknowledged(reason: string, operator: string, resolution: string)

  datatype FenceError = MissingAttribution | NoFence | StillRaised | WriteFailed

  class FatalFence {
    var cell: Option<FenceRecord>
    ghost var failures: nat            // fence writes that failed

    constructor ()
      ensures cell == None && failures == 0
    {
      cell := None;
      failures := 0;
    }

    /** Startup gate: clear only when no fence is present. */
    method RequireClear() returns (clear: bool)
      ensures clear <==> cell.None?
    {
      return cell.None?;
    }

    /** Persist a fence. The first cause is kept; a failed write is reported,
        and may or may not have reached the volume. */
    method Raise(reason: string) returns (ok: bool)
      modifies this
      ensures ok ==> cell.Some?
      ensures old(cell).Some? ==> ok && cell == old(cell)
      ensures cell == old(cell) || cell == Some(Raised(reason))
      ensures failures == old(failures) + if ok then 0 else 1
    {
      if cell.Some? {
        return true;
      }
      var landed: bool, reported: bool := *, *;
      if landed || reported {
        cell := Some(Raised(reason));
      }
      failures := failures + if reported then 0 else 1;
      return reported;
    }

    /** Phase one: who and why. The fence stays. */
    method Acknowledge(operator: string, resolution: string) returns (error: Option<FenceError>)
      modifies `cell
      ensures cell.Some? <==> old(cell).Some?
      ensures old(cell).Some? ==> cell.value.reason == old(cell).value.reason
      ensures cell != old(cell) ==> operator != "" && resolution != "" &&
                                    cell == Some(Acknowledged(old(cell).value.reason, operator, resolution))
      ensures error == Some(MissingAttribution) <==> operator == "" || resolution == ""
      ensures error.None? ==> cell.Some? && cell.value.Acknowledged?
    {
      if operator == "" || resolution == "" {
        return Some(MissingAttribution);
      }
      if cell.None? {
        return Some(NoFence);
      }
      if cell.value.Acknowledged? {
        return None;
      }
      var landed: bool, reported: bool := *, *;
      if landed || reported {
        cell := Some(Acknowledged(cell.value.reason, operator, resolution));
      }
      return if reported then None else Some(WriteFailed);
    }

    /** Phase two: removed exactly when acknowledged and the account was reconciled. */
    method Retire(reconciled: bool) returns (error: Option<FenceError>)
      modifies `cell
      ensures old(cell).None? ==> error.None? && cell.None?
      ensures old(cell).Some? ==>
                (cell.None? <==> old(cell).value.Acknowledged? && reconciled) &&
                (error.None? <==> cell.None?)
      ensures cell.Some? ==> cell == old(cell)
    {
      if cell.None? {
        return None;
      }
      if !cell.value.Acknowledged? || !reconciled {
        return Some(StillRaised);
      }
      cell := None;
      return None;
    }
  }
}
