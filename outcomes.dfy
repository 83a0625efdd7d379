/** The failures the modelled Java code can raise. Each stands for the exception the
    JVM or the library throws at that point; the model returns it instead of throwing. */
module Outcomes {

  datatype Error =
    | Unsupported             // UnsupportedOperationException("Not implemented yet.")
    | IndexOutOfBounds        // ArrayIndexOutOfBoundsException
    | NegativeArraySize       // NegativeArraySizeException
    | EndOfFile               // EOFException from a DataInputStream or RandomAccessFile
    | StringIndexOutOfBounds  // StringIndexOutOfBoundsException from substring
    | NumberFormat            // NumberFormatException from Double.parseDouble
    | NotANumber              // the softmax NaN check that ends the process

  datatype Result<+T> = Ok(value: T) | Err(error: Error) {
    predicate IsFailure() { Err? }

    function PropagateFailure<U>(): Result<U>
      requires Err?
    {
      Err(error)
    }

    function Extract(): T
      requires Ok?
    {
      value
    }
  }

  datatype Option<+T> = None | Some(value: T)
}
