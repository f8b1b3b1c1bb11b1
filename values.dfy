/** Values that flow through the CSV pipelines: the cells of output tuples,
    optional and fallible results, and the Python exceptions that the modelled
    code raises, catches or wraps. */
module Values {

  /** One cell of an output tuple: a Python `str`, an `int` or `None`. */
  datatype Cell = Str(s: string) | Int(i: int) | Null

  /** Python truthiness of a cell: the empty string, 0 and None are false. */
  predicate Truthy(c: Cell) {
    match c
    case Str(s) => s != ""
    case Int(i) => i != 0
    case Null => false
  }

  datatype Option<T> = None | Some(value: T)

  /** The exceptions raised on the modelled paths.  A `ClientError` stands for
      any failure reported by boto3 or by a database driver; the wrapping
      exceptions keep the context text the source puts in front of `str(e)`. */
  datatype Error =
    | ClientError
    | IndexError
    | KeyError
    | AttributeError
    | StopIteration                                 // `next()` on a search that found nothing
    | ValueError(message: string)
    | NameError(name: string)
    | NotImplemented(message: string)
    | OutsideInput(prefix: string)                  // a key outside the input prefix, reported without raising
    | InvalidFile(prefix: string)                   // InvalidFileError / ErroArquivoInvalido
    | StorageFailure(context: string, cause: Error) // StorageError / ErroArmazenamento
    | DatabaseFailure(context: string, cause: Error)// DatabaseError / ErroBancoDados

  /** The s3tords handler catches exactly the subclasses of its `ProcessingError`. */
  predicate IsProcessingError(e: Error) {
    e.InvalidFile? || e.StorageFailure? || e.DatabaseFailure?
  }

  datatype Result<T> = Ok(value: T) | Err(error: Error)
}
