/**
 * The session runner's error type (src/game/runner/error.rs): what goes
 * wrong while reading and parsing a line of coordinates. Equality looks at
 * the variant only, never at the message.
 */
module RunnerError {

  datatype Error =
    | ParseError(message: string)
    | InputError(message: string)
    | InvalidArgumentsError

  /** A failed read: the text is what the I/O error displays as. */
  datatype IoError = IoError(text: string)

  /** Why `str::parse::<usize>` rejects a token. */
  datatype IntErrorKind = EmptyInput | InvalidDigit | PosOverflow

  datatype ParseIntError = ParseIntError(kind: IntErrorKind)

  /** The text a ParseIntError displays as. */
  function Describe(e: ParseIntError): string
  {
    match e.kind
    case EmptyInput => "cannot parse integer from empty string"
    case InvalidDigit => "invalid digit found in string"
    case PosOverflow => "number too large to fit in target type"
  }

  /** `From<io::Error>`: an input error carrying the I/O error's text. */
  function FromIoError(e: IoError): (r: Error)
    ensures r.InputError? && r.message == e.text
  {
    InputError(e.text)
  }

  /** `From<ParseIntError>`: a parse error carrying the parse error's text. */
  function FromParseIntError(e: ParseIntError): (r: Error)
    ensures r.ParseError? && r.message == Describe(e)
  {
    ParseError(Describe(e))
  }

  /** `PartialEq for Error`: a match on the left variant, then on the right. */
  predicate Equal(a: Error, b: Error)
  {
    match a
    case ParseError(_) => (match b case ParseError(_) => true case _ => false)
    case InputError(_) => (match b case InputError(_) => true case _ => false)
    case InvalidArgumentsError => (match b case InvalidArgumentsError => true case _ => false)
  }

  /** Which of the three variants an error is. */
  function VariantOf(e: Error): (v: nat)
    ensures v < 3
  {
    if e.ParseError? then 0 else if e.InputError? then 1 else 2
  }

  /** Two errors are equal exactly when they are the same variant. */
  lemma EqualIffSameVariant(a: Error, b: Error)
    ensures Equal(a, b) <==> VariantOf(a) == VariantOf(b)
  {
  }

  /** The messages play no part in equality. */
  lemma EqualIgnoresMessage(m: string, n: string)
    ensures Equal(ParseError(m), ParseError(n))
    ensures Equal(InputError(m), InputError(n))
    ensures !Equal(ParseError(m), InputError(n))
  {
  }

  /** The equality is reflexive, symmetric and transitive. */
  lemma EqualIsEquivalence(a: Error, b: Error, c: Error)
    ensures Equal(a, a)
    ensures Equal(a, b) ==> Equal(b, a)
    ensures Equal(a, b) && Equal(b, c) ==> Equal(a, c)
  {
  }

  /** Whatever the I/O error, the conversion equals `InputError` of any text. */
  lemma FromIoErrorIsInputError(e: IoError, text: string)
    ensures Equal(FromIoError(e), InputError(text))
    ensures !Equal(FromIoError(e), ParseError(text)) && !Equal(FromIoError(e), InvalidArgumentsError)
  {
  }

  /** Whatever the parse failure, the conversion equals `ParseError` of any text. */
  lemma FromParseIntErrorIsParseError(e: ParseIntError, text: string)
    ensures Equal(FromParseIntError(e), ParseError(text))
    ensures !Equal(FromParseIntError(e), InputError(text)) && !Equal(FromParseIntError(e), InvalidArgumentsError)
  {
  }
}
