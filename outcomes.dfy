/** Optional values (nullable references) and the exceptions the modelled C# code can raise. */
module Outcomes {

  datatype Option<T> = None | Some(value: T) {
    function GetOr(default: T): T
    {
      match this
      case Some(v) => v
      case None => default
    }
  }

  /** The .NET exceptions that the modelled code can throw */
  datatype Fault =
    | NullReference        // a member access through a null reference
    | ArgumentOutOfRange   // List.GetRange with a negative count
    | DuplicateKey         // SortedList.Add with a key already present
    | NotImplemented       // RollMove.CalculateVectorFromEdgeToCentre on Direction.None
    | IndexOutOfRange      // an array index past the end

  datatype Result<T> = Ok(value: T) | Fail(fault: Fault)
}
