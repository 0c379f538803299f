/** src/presentation/src/api/error.rs and src/presentation/src/api/utils.rs:
    the handlers' error type and the paging parameters of a listing
    request. */
module ApiUtils {
  import opened Wrappers
  import opened RustInt
  import CoreUtils

  /** `HandlerError`. A failed `try_into` is `LsThanZero` (its message is
      "field should be gte than 0"); `Service` stands for any error of the
      service layer, which is not part of this model. */
  datatype HandlerError =
    | Service(description: string)
    | LsThanZero
    | MaxLoginLen
    | MinLoginLen
    | MaxPasswordLen
    | MinPasswordLen
    | IdMismatch
    | Parse(error: CoreUtils.DomainError)

  /** `OffsetDto`: page and page size as the client sends them, signed. */
  datatype OffsetDto = OffsetDto(page: i32, limit: i32)

  /** `OffsetDto::default()`: the first page, fifty items; it converts. */
  function DefaultOffsetDto(): (d: OffsetDto)
    ensures OffsetFromDto(d) == Ok(CoreUtils.Offset(1, 50))
  {
    OffsetDto(1, 50)
  }

  /** `TryFrom<OffsetDto> for Offset`: each field through `try_into`, the
      page first. Only the sign is checked, so 0 passes; both failures are
      the same `LsThanZero`. */
  function OffsetFromDto(d: OffsetDto): (r: Result<CoreUtils.Offset, HandlerError>)
    ensures r.Ok? <==> d.page >= 0 && d.limit >= 0
    ensures r.Ok? ==> r.value.page == d.page && r.value.limit == d.limit
    ensures r.Err? ==> r.error == LsThanZero
  {
    match TryUnsigned(d.page)
    case None => Err(LsThanZero)
    case Some(page) =>
      match TryUnsigned(d.limit)
      case None => Err(LsThanZero)
      case Some(limit) => Ok(CoreUtils.Offset(page, limit))
  }

  /** Every page and page size the repositories accept comes from some
      request: the conversion is onto the offsets whose fields fit `i32`. */
  lemma OffsetFromDtoOnto(o: CoreUtils.Offset)
    requires o.page <= I32_MAX && o.limit <= I32_MAX
    ensures OffsetFromDto(OffsetDto(o.page, o.limit)) == Ok(o)
  {
  }
}
