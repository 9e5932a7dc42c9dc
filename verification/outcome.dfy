/** Errors raised while building a document, and the Result type that carries them.
    Each constructor names one error the loader raises, with the exception class it raises in comment. */
module Outcome {

  datatype Error =
    /** libyaml failed to produce the next event (SyntaxError / MemoryError). */
    | ParseFailed(problem: string)
    /** A scalar carries an explicit tag that no builder has (TypeError "No constructor for tag"). */
    | NoConstructorForTag(tag: string)
    /** A collection carries a tag with no Python constructor (ValueError "unknown collection tag"). */
    | UnknownCollectionTag(tag: string)
    /** An event that cannot start a node where a node is expected (SyntaxError). */
    | NodeAwaited
    /** A `pairs` element that does not open with a mapping (SyntaxError "awaited opening pair"). */
    | AwaitedOpeningPair
    /** A `pairs` element whose mapping does not close after one key and value (SyntaxError "awaited close pair"). */
    | AwaitedClosePair
    /** A merge key whose value is neither a list nor a dict (SyntaxError "dictionary or list awaited"). */
    | DictionaryOrListAwaited
    /** A list element under a merge key that is not a dict (raised by the dict merge). */
    | MergeItemNotMapping
    /** A mapping key Python cannot hash: a list, dict or set (TypeError raised by the dict insert). */
    | UnhashableKey
    /** An alias to an anchor not bound in this document (KeyError "unknown alias"). */
    | UnknownAlias(anchor: string)
    /** A second node before the end of the document (SyntaxError "awaited end of document"). */
    | AwaitedEndOfDocument
    /** Something other than a document start or the stream end (SyntaxError "awaited document start"). */
    | AwaitedDocumentStart
    /** A second document in a stream read as a single one (RuntimeError). */
    | ExpectedSingleDocument
    /** A scalar tagged int that the int grammar refuses (ValueError "wrong int format"). */
    | WrongIntFormat
    /** A scalar tagged timestamp that the timestamp grammar refuses (ValueError "wrong timestamp format"). */
    | WrongTimestampFormat
    /** A date or time field out of range for Python's `date` or `datetime` (ValueError). */
    | InvalidDate
    /** A scalar tagged bool that is no bool token (RuntimeError "unknown bool value"). */
    | UnknownBoolValue
    /** Text that Python's integer parser refuses (ValueError "invalid literal for int()"). */
    | InvalidIntLiteral
    /** An exception raised by a Python callable: a resolver, a constructor or base64 decoding. */
    | Raised(reason: string)
    /** Registration of a constructor that is not callable (TypeError). */
    | ConstructorNotCallable
    /** Registration of a resolver without a match() method (TypeError). */
    | ResolverWithoutMatch

  datatype Result<+T> = Ok(value: T) | Err(error: Error) {
    predicate IsFailure() { Err? }

    function PropagateFailure<U>(): Result<U>
      requires Err?
    {
      Err(error)
    }

    function Extract(): T
      requires Ok?
    {
      value
    }
  }

  datatype Option<+T> = None | Some(value: T)
}
