/** Types shared by the model of the execution gateway. */
module Base {

  /** A nullable value: SQL NULL or Python None is `None`. */
  datatype Option<+T> = None | Some(value: T)

  /** A call that returns a value or raises an error. */
  datatype Result<+T, +E> = Ok(value: T) | Err(error: E)

  datatype Side = Buy | Sell

  /** SQL COALESCE of two nullable values. */
  function Coalesce<T>(a: Option<T>, b: Option<T>): Option<T> {
    if a.Some? then a else b
  }

  function Max(a: real, b: real): real {
    if a < b then b else a
  }

  /** A finite set can be listed. */
  lemma ListOf<T>(s: set<T>) returns (list: seq<T>)
    ensures forall x :: x in list <==> x in s
  {
    if s == {} {
      list := [];
    } else {
      var x :| x in s;
      var rest := ListOf(s - {x});
      list := [x] + rest;
    }
  }
}
