/**
 * The run-time panics of the interpreter and of the small compilers, the
 * Result type through which a modelled operation either returns a value or
 * reports the panic that ends it, and Option for lookups that may miss.
 */
module Results {

  datatype Panic =
    | TypeAssertion        // a Go type assertion v.(T) met a different dynamic type
    | InvalidBinaryOp      // "invalid binary op": no case for this operator and operand type
    | InvalidUnaryOp       // "invalid unary op"
    | DivisionByZero       // integer division or remainder by zero
    | NilDereference       // *p with p == nil
    | Uncomparable         // "comparing uncomparable type"
    | NoZeroValue          // Zero has no case for the type
    | BadConstant          // constValue has no case for the constant
    | UnboundValue         // "get: no value for": an operand with no binding
    | UnknownFunction      // runFunc on a callee that is neither a Function nor a Builtin
    | UnknownInstruction   // runFrame met an instruction it does not implement
    | MultiReturn          // "multi-return is not supported"
    | MethodCall           // "method is not supported"
    | UnknownBuiltin       // a builtin other than print/println
    | UnknownCall          // the earlier engine's "Unknown call"
    | IndexOutOfRange      // a slice index past the end (Blocks[0], Succs[i], args[i], Edges[i])
    | EmptyStack           // "stk is empty unable to pop"
    | Unmodelled           // floating-point and complex arithmetic, which the model leaves out
    | OutOfFuel            // the fuel bound on a possibly non-terminating run was used up

  datatype Result<+T> = Ok(value: T) | Err(panic: Panic) {
    predicate IsFailure() {
      Err?
    }

    function PropagateFailure<U>(): Result<U>
      requires Err?
    {
      Err(panic)
    }

    function Extract(): T
      requires Ok?
    {
      value
    }
  }

  datatype Option<+T> = None | Some(value: T)
}
