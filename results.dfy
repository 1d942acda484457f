/** Failure-carrying results shared by every module: the Java exceptions the
    modelled code throws become the Err case of Result. */
module Results {

  datatype Option<+T> = None | Some(value: T) {
    function GetOr(default: T): T {
      match this
      case Some(v) => v
      case None => default
    }
  }

  /** The exception classes thrown by the modelled code (and by the guest
      interpreter, which surfaces as PythonException). */
  datatype ExceptionKind =
    | IllegalState
    | IllegalArgument
    | UnsupportedOperation
    | Runtime
    | NullReference
    | ClassCast
    | ValueNotFound
    | TypeMismatch
    | Python

  datatype Exception = Exception(kind: ExceptionKind, message: string)

  datatype Result<+T> = Ok(value: T) | Err(error: Exception) {
    predicate IsFailure() {
      Err?
    }

    function PropagateFailure<U>(): Result<U>
      requires Err?
    {
      Err(error)
    }

    function Extract(): T
      requires Ok?
    {
      value
    }
  }

  /** A loop that appends the value of each of the first n results in
      turn and stops at the first failure. */
  function Collect<T>(rs: seq<Result<T>>, n: nat): (r: Result<seq<T>>)
    requires n <= |rs|
    ensures r.Ok? ==> |r.value| == n
  {
    if n == 0 then Ok([])
    else
      var prev :- Collect(rs, n - 1);
      var x :- rs[n - 1];
      Ok(prev + [x])
  }

  /** The loop succeeds exactly when each of the first n results does, and
      then holds their values in order. */
  lemma {:induction false} CollectMeaning<T>(rs: seq<Result<T>>, n: nat)
    requires n <= |rs|
    ensures Collect(rs, n).Ok? <==> forall i :: 0 <= i < n ==> rs[i].Ok?
    ensures Collect(rs, n).Ok? ==> (|Collect(rs, n).value| == n
      && forall i :: 0 <= i < n ==> Collect(rs, n).value[i] == rs[i].value)
  {
    if n > 0 {
      CollectMeaning(rs, n - 1);
    }
  }

  /** A failure at position i is the failure of the whole loop. */
  lemma {:induction false} CollectErrorStops<T>(rs: seq<Result<T>>, i: nat, n: nat)
    requires i <= n <= |rs| && Collect(rs, i).Err?
    ensures Collect(rs, n) == Collect(rs, i)
    decreases n
  {
    if n > i {
      CollectErrorStops(rs, i, n - 1);
    }
  }

  /** One more position of a loop that collects results. */
  lemma CollectStep<T>(rs: seq<Result<T>>, i: nat)
    requires i < |rs| && Collect(rs, i).Ok?
    ensures rs[i].Err? ==> Collect(rs, i + 1) == Err(rs[i].error)
    ensures rs[i].Ok? ==> Collect(rs, i + 1) == Ok(Collect(rs, i).value + [rs[i].value])
  {
  }
}
