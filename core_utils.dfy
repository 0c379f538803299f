/** src/core/src/models/utils.rs and src/core/src/error.rs: the error type of
    the current crate, `Offset`, and the `FromStr` parsers of `FilterOp<T>`
    and `OrderOp`. */
module CoreUtils {
  import opened Wrappers
  import opened Text
  import opened RustInt
  import opened Vocabulary

  /** `DomainError`. Each string payload is the text that failed to parse.
      `Infallible` has no values and is left out; `ParseInt` carries the
      `IntErrorKind` of the `ParseIntError`. */
  datatype DomainError =
    | Parse(text: string)
    | OrderOp(text: string)
    | Order(text: string)
    | FilterOp(text: string)
    | Filter(text: string)
    | ParseInt(kind: IntErrorKind)

  /** `Offset`: a page number and a page size, both `u32`. */
  datatype Offset = Offset(page: u32, limit: u32)

  /** `<u64 as FromStr>` lifted into `DomainError` by `#[from] ParseIntError`. */
  function ParseU64(s: string): (r: Result<u64, DomainError>)
    ensures r.Err? ==> r.error.ParseInt?
  {
    match ParseUnsigned(s, U64_MAX)
    case Ok(n) => Ok(n)
    case Err(k) => Err(ParseInt(k))
  }

  /** `<u32 as FromStr>` lifted into `DomainError`. */
  function ParseU32(s: string): (r: Result<u32, DomainError>)
    ensures r.Err? ==> r.error.ParseInt?
  {
    match ParseUnsigned(s, U32_MAX)
    case Ok(n) => Ok(n)
    case Err(k) => Err(ParseInt(k))
  }

  /** `<String as FromStr>`: never fails and keeps the text as it is. */
  function ParseText(s: string): (r: Result<string, DomainError>)
    ensures r == Ok(s)
  {
    Ok(s)
  }

  /** The decimal text of every `u64` parses back to it. */
  lemma ParseU64RoundTrip(n: u64)
    ensures ParseU64(NatToString(n)) == Ok(n)
  {
    ParseUnsignedRoundTrip(n, U64_MAX);
  }

  /** The decimal text of every `u32` parses back to it. */
  lemma ParseU32RoundTrip(n: u32)
    ensures ParseU32(NatToString(n)) == Ok(n)
  {
    ParseUnsignedRoundTrip(n, U32_MAX);
  }

  /** `FilterOp::<T>::from_str`: split at the first space, the trimmed head
      selects the variant, the untouched tail is parsed by `T`'s own parser. */
  function ParseFilterOp<T>(s: string, parseValue: string -> Result<T, DomainError>)
    : (r: Result<Vocabulary.FilterOp<T>, DomainError>)
    ensures ' ' !in s ==> r == Err(DomainError.Filter(s))
    ensures ' ' in s && OperatorFromKeyword(Trim(SplitOnce(s).value.0)).None?
      ==> r == Err(DomainError.FilterOp(s))
    ensures r.Ok? ==>
      && ' ' in s
      && Keyword(r.value.Kind()) == Trim(SplitOnce(s).value.0)
      && parseValue(SplitOnce(s).value.1) == Ok(r.value.value)
  {
    match SplitOnce(s)
    case None => Err(DomainError.Filter(s))
    case Some((op, value)) =>
      match OperatorFromKeyword(Trim(op))
      case Some(k) => var v :- parseValue(value); Ok(MakeFilterOp(k, v))
      case None => Err(DomainError.FilterOp(s))
  }

  /** With a known operator the result is exactly what `T`'s parser makes
      of the untouched tail: its value, or its own error. */
  lemma ParseFilterOpKnown<T>(s: string, parseValue: string -> Result<T, DomainError>)
    requires ' ' in s && OperatorFromKeyword(Trim(SplitOnce(s).value.0)).Some?
    ensures ParseFilterOp(s, parseValue)
      == match parseValue(SplitOnce(s).value.1)
         case Ok(x) => Ok(MakeFilterOp(OperatorFromKeyword(Trim(SplitOnce(s).value.0)).value, x))
         case Err(e) => Err(e)
  {
    var (op, v) := SplitOnce(s).value;
    assert SplitOnce(s) == Some((op, v));
  }

  /** `value(parse("<op> <v>")) == parse_T(v)`: an operator token, a space and
      any value text select that operator and carry exactly what `T`'s parser
      makes of the text, or fail with `T`'s own error. */
  lemma ParseFilterOpOf<T>(k: Operator, v: string, parseValue: string -> Result<T, DomainError>)
    ensures ParseFilterOp(Keyword(k) + " " + v, parseValue)
      == match parseValue(v)
         case Ok(x) => Ok(MakeFilterOp(k, x))
         case Err(e) => Err(e)
  {
    var s := Keyword(k) + " " + v;
    KeywordIsWord(k);
    SplitOnceOf(Keyword(k), v);
    OperatorKeywordRoundTrip(k);
    assert SplitOnce(s) == Some((Keyword(k), v));
    assert OperatorFromKeyword(Trim(Keyword(k))) == Some(k);
  }

  /** A filter's token tail reads back as the filter whenever its value text
      reads back as its value. */
  lemma ParseFilterOpText<T>(op: Vocabulary.FilterOp<T>, v: string, parseValue: string -> Result<T, DomainError>)
    requires parseValue(v) == Ok(op.value)
    ensures ParseFilterOp(Keyword(op.Kind()) + " " + v, parseValue) == Ok(op)
  {
    ParseFilterOpOf(op.Kind(), v, parseValue);
    MakeFilterOpOf(op);
  }

  /** `OrderOp::from_str`: the trimmed text must be exactly `asc` or `desc`;
      the error carries the untrimmed text. */
  function ParseOrderOp(s: string): (r: Result<Vocabulary.OrderOp, DomainError>)
    ensures r.Ok? <==> Trim(s) == "asc" || Trim(s) == "desc"
    ensures r.Ok? ==> OrderOpKeyword(r.value) == Trim(s)
    ensures r.Err? ==> r == Err(DomainError.OrderOp(s))
  {
    match Trim(s)
    case "asc" => Ok(Asc)
    case "desc" => Ok(Desc)
    case _ => Err(DomainError.OrderOp(s))
  }

  /** A direction keyword with any whitespace around it parses to that
      direction. */
  lemma ParseOrderOpRoundTrip(o: Vocabulary.OrderOp, a: string, b: string)
    requires AllWhitespace(a) && AllWhitespace(b)
    ensures ParseOrderOp(a + OrderOpKeyword(o) + b) == Ok(o)
  {
    TrimPadded(a, OrderOpKeyword(o), b);
  }

  /** Each direction keyword parses to its direction. */
  lemma ParseOrderOpKeyword(o: Vocabulary.OrderOp)
    ensures ParseOrderOp(OrderOpKeyword(o)) == Ok(o)
  {
    ParseOrderOpRoundTrip(o, "", "");
    assert "" + OrderOpKeyword(o) + "" == OrderOpKeyword(o);
  }

  /** The uppercase `Display` text of a direction is not accepted back. */
  lemma OrderOpDisplayNotParsed(o: Vocabulary.OrderOp)
    ensures ParseOrderOp(OrderOpDisplay(o)) == Err(DomainError.OrderOp(OrderOpDisplay(o)))
  {
    TrimNoEdgeSpace(OrderOpDisplay(o));
  }
}
