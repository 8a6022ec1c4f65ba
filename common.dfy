/** Result types and the errors the pipeline can raise. */
module Common {

  /** The Python exceptions the pipeline's own code can raise, one constructor each. */
  datatype Error =
    | SampleLargerThanPopulation      // ValueError from random.sample
    | SegmentIndexOutOfRange          // IndexError: midpoint of a segment group with no segments
    | NoCellInDocument                // IndexError: nml_doc.cells[0] on a document without cells
    | FileNotFound(path: string)      // open(..., "r") on a missing file
    | FileExists(path: string)        // os.mkdir on a path that exists
    | ArgumentMismatch                // TypeError: a call with more arguments than the callee takes

  datatype Option<T> = None | Some(value: T)

  datatype Result<T> = Ok(value: T) | Err(error: Error)

  /** The result of an operation that returns nothing but may raise. */
  datatype Outcome = Pass | Fail(error: Error)

  /** No element occurs twice. */
  predicate Distinct<T(==)>(s: seq<T>)
  {
    forall i, j :: 0 <= i < j < |s| ==> s[i] != s[j]
  }
}
