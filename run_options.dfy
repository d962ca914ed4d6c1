/**
 * Execution options: a shot count that is positive in every object there is,
 * and the backend to run on. A rejected shot count throws before any field
 * changes, so it leaves the options as they were.
 */
module Options {
  import opened Wrappers

  datatype BackendType = STATEVECTOR | HARDWARE

  class RunOptions {
    var shots: int
    var backendType: BackendType

    /** Every object the factories hand out has at least one shot. */
    predicate Valid()
      reads this
    {
      shots > 0
    }

    /** The private constructors' common end state. */
    constructor Init(n: int, t: BackendType)
      requires n > 0
      ensures shots == n && backendType == t && Valid()
    {
      shots := n;
      backendType := t;
    }

    function GetShots(): int
      reads this
    {
      shots
    }

    function GetBackendType(): BackendType
      reads this
    {
      backendType
    }

    /** `setShots(n)`: IllegalArgument for n <= 0, before anything changes. */
    method SetShots(n: int) returns (res: Result<()>)
      modifies this
      ensures n <= 0 ==> res == Err(IllegalArgument) && shots == old(shots)
      ensures n > 0 ==> res == Ok(()) && shots == n
      ensures backendType == old(backendType)
      ensures old(Valid()) ==> Valid()
    {
      if n <= 0 {
        return Err(IllegalArgument);
      }
      shots := n;
      return Ok(());
    }

    /** `withShots(n)`: the same object with n shots, or IllegalArgument with nothing changed. */
    method WithShots(n: int) returns (res: Result<RunOptions>)
      modifies this
      ensures n <= 0 ==> res == Err(IllegalArgument) && shots == old(shots)
      ensures n > 0 ==> res == Ok(this) && shots == n
      ensures backendType == old(backendType)
      ensures old(Valid()) ==> Valid()
    {
      var r := SetShots(n);
      if r.Err? {
        return Err(r.error);
      }
      return Ok(this);
    }
  }

  /** `RunOptions.shots(n)`: n shots on the default STATEVECTOR backend, or IllegalArgument for n <= 0. */
  method Shots(n: int) returns (res: Result<RunOptions>)
    ensures res.Err? <==> n <= 0
    ensures res.Err? ==> res.error == IllegalArgument
    ensures res.Ok? ==> fresh(res.value) && res.value.Valid()
    ensures res.Ok? ==> res.value.shots == n && res.value.backendType == STATEVECTOR
  {
    if n <= 0 {
      return Err(IllegalArgument);
    }
    var opt := new RunOptions.Init(n, STATEVECTOR);
    return Ok(opt);
  }

  /** `RunOptions.withBackend(t)`: backend t with the default single shot. */
  method WithBackend(t: BackendType) returns (opt: RunOptions)
    ensures fresh(opt) && opt.Valid()
    ensures opt.shots == 1 && opt.backendType == t
  {
    opt := new RunOptions.Init(1, t);
  }
}
