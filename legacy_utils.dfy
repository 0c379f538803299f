/** The older crate's shared query vocabulary: src/domain/error.rs, the three
    per-resource error enums (src/domain/{event,user,favorite}/error.rs) and
    src/domain/utils.rs (`Offset`, `FilterOp::from_str`, `OrderOp::from_str`).
    The operator tables and `FilterOp<T>` itself are the ones in `Vocabulary`. */
module LegacyUtils {
  import opened Wrappers
  import opened Text
  import opened RustInt
  import opened Vocabulary

  /** `UserError`. */
  datatype UserError = Role(text: string) | Order(text: string) | Filter(text: string)

  /** `EventError`. */
  datatype EventError = Status(text: string) | Order(text: string) | Filter(text: string)

  /** `FavoriteError`. */
  datatype FavoriteError = Order(text: string) | Filter(text: string)

  /** `DomainError` of the older crate. The file declares `User`, `OrderOp`,
      `FilterOp`, `Filter` and the empty `Infallible`; the parsers also lift
      `EventError`, `FavoriteError` and `ParseIntError` into it with `?` and
      `into()`, so those conversions are given their own variants here. */
  datatype DomainError =
    | User(user: UserError)
    | OrderOp(text: string)
    | FilterOp(text: string)
    | Filter(text: string)
    | Event(event: EventError)
    | Favorite(favorite: FavoriteError)
    | ParseInt(kind: IntErrorKind)

  /** `Offset` of the older crate: signed page and page size. */
  datatype Offset = Offset(page: i32, limit: i32)

  /** `Offset::default()`: the first page of fifty. */
  function DefaultOffset(): (o: Offset)
    ensures o.page == 1 && o.limit == 50
  {
    Offset(1, 50)
  }

  /** `<i64 as FromStr>` lifted into `DomainError`: ids are signed here, so
      negative ids parse. */
  function ParseI64(s: string): (r: Result<i64, DomainError>)
    ensures r.Err? ==> r.error.ParseInt?
  {
    match ParseSigned(s, I64_MIN, I64_MAX)
    case Ok(n) => Ok(n)
    case Err(k) => Err(ParseInt(k))
  }

  /** `<u32 as FromStr>` lifted into `DomainError`. */
  function ParseU32(s: string): (r: Result<u32, DomainError>)
    ensures r.Err? ==> r.error.ParseInt?
  {
    match ParseUnsigned(s, U32_MAX)
    case Ok(n) => Ok(n)
    case Err(k) => Err(ParseInt(k))
  }

  /** `<String as FromStr>`: never fails. */
  function ParseText(s: string): (r: Result<string, DomainError>)
    ensures r == Ok(s)
  {
    Ok(s)
  }

  /** The decimal text of every `i64`, negative ones included, parses back. */
  lemma ParseI64RoundTrip(n: i64)
    ensures ParseI64(IntToString(n)) == Ok(n)
  {
    ParseSignedRoundTrip(n, I64_MIN, I64_MAX);
  }

  lemma ParseU32RoundTrip(n: u32)
    ensures ParseU32(NatToString(n)) == Ok(n)
  {
    ParseUnsignedRoundTrip(n, U32_MAX);
  }

  /** `FilterOp::<T>::from_str` of the older crate: the same split and the
      same operator table as the current one, with this crate's errors. */
  function ParseFilterOp<T>(s: string, parseValue: string -> Result<T, DomainError>)
    : (r: Result<Vocabulary.FilterOp<T>, DomainError>)
    ensures ' ' !in s ==> r == Err(DomainError.Filter(s))
    ensures ' ' in s && OperatorFromKeyword(Trim(SplitOnce(s).value.0)).None?
      ==> r == Err(DomainError.FilterOp(s))
    ensures r.Ok? ==>
      && ' ' in s
      && Keyword(r.value.Kind()) == Trim(SplitOnce(s).value.0)
      && parseValue(SplitOnce(s).value.1) == Ok(r.value.value)
  {
    match SplitOnce(s)
    case None => Err(DomainError.Filter(s))
    case Some((op, value)) =>
      match OperatorFromKeyword(Trim(op))
      case Some(k) => var v :- parseValue(value); Ok(MakeFilterOp(k, v))
      case None => Err(DomainError.FilterOp(s))
  }

  /** With a known operator the result is exactly what `T`'s parser makes
      of the untouched tail: its value, or its own error. */
  lemma ParseFilterOpKnown<T>(s: string, parseValue: string -> Result<T, DomainError>)
    requires ' ' in s && OperatorFromKeyword(Trim(SplitOnce(s).value.0)).Some?
    ensures ParseFilterOp(s, parseValue)
      == match parseValue(SplitOnce(s).value.1)
         case Ok(x) => Ok(MakeFilterOp(OperatorFromKeyword(Trim(SplitOnce(s).value.0)).value, x))
         case Err(e) => Err(e)
  {
  }

  /** An operator token, a space and any value text select that operator and
      carry exactly what `T`'s parser makes of the text. */
  lemma ParseFilterOpOf<T>(k: Operator, v: string, parseValue: string -> Result<T, DomainError>)
    ensures ParseFilterOp(Keyword(k) + " " + v, parseValue)
      == match parseValue(v)
         case Ok(x) => Ok(MakeFilterOp(k, x))
         case Err(e) => Err(e)
  {
    var s := Keyword(k) + " " + v;
    KeywordIsWord(k);
    SplitOnceOf(Keyword(k), v);
    OperatorKeywordRoundTrip(k);
    assert SplitOnce(s) == Some((Keyword(k), v));
    assert OperatorFromKeyword(Trim(Keyword(k))) == Some(k);
  }

  /** A filter's token tail reads back as the filter whenever its value text
      reads back as its value. */
  lemma ParseFilterOpText<T>(op: Vocabulary.FilterOp<T>, v: string, parseValue: string -> Result<T, DomainError>)
    requires parseValue(v) == Ok(op.value)
    ensures ParseFilterOp(Keyword(op.Kind()) + " " + v, parseValue) == Ok(op)
  {
    ParseFilterOpOf(op.Kind(), v, parseValue);
    MakeFilterOpOf(op);
  }

  /** `OrderOp::from_str` of the older crate: trimmed, lowercase only. */
  function ParseOrderOp(s: string): (r: Result<Vocabulary.OrderOp, DomainError>)
    ensures r.Ok? <==> Trim(s) == "asc" || Trim(s) == "desc"
    ensures r.Ok? ==> OrderOpKeyword(r.value) == Trim(s)
    ensures r.Err? ==> r == Err(DomainError.OrderOp(s))
  {
    match Trim(s)
    case "asc" => Ok(Asc)
    case "desc" => Ok(Desc)
    case _ => Err(DomainError.OrderOp(s))
  }

  /** Each direction keyword parses to its direction, padded or not. */
  lemma ParseOrderOpRoundTrip(o: Vocabulary.OrderOp, a: string, b: string)
    requires AllWhitespace(a) && AllWhitespace(b)
    ensures ParseOrderOp(a + OrderOpKeyword(o) + b) == Ok(o)
  {
    TrimPadded(a, OrderOpKeyword(o), b);
  }

  lemma ParseOrderOpKeyword(o: Vocabulary.OrderOp)
    ensures ParseOrderOp(OrderOpKeyword(o)) == Ok(o)
  {
    ParseOrderOpRoundTrip(o, "", "");
    assert "" + OrderOpKeyword(o) + "" == OrderOpKeyword(o);
  }

  /** The uppercase `Display` text of a direction is not accepted back. */
  lemma OrderOpDisplayNotParsed(o: Vocabulary.OrderOp)
    ensures ParseOrderOp(OrderOpDisplay(o)) == Err(DomainError.OrderOp(OrderOpDisplay(o)))
  {
    TrimNoEdgeSpace(OrderOpDisplay(o));
  }
}
