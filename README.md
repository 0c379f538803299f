# Event microservice: query language and dynamic SQL, in Dafny

This project models the core of the event microservice, a REST service for
events, users and favourites backed by PostgreSQL. Its core is a small query
language. A caller sends filters and orders as short text tokens such as
`cost gte 100` or `title desc`. The domain layer parses these tokens into
typed filters and orders. The repositories then compile them into a
parameterised SQL statement: column names and operators go into the text,
values are bound as `$1 .. $n`, and paging is added at the end. The
repository has two generations of this code, and both are modelled:

- the current one: `src/core` (models and parsers) and
  `src/infrastructure/src` (repositories, rows, error classification);
- the older one: `src/domain` (models and parsers) and
  `src/infrastructure/db` (repositories).

The model also covers the conversion of driver errors into `DbError`, the
conversion of stored rows into domain models, and the request and response
DTOs of the HTTP layer with their validators.

Modules:

- `Wrappers`, `Text`, `RustInt`: `Option`/`Result`; Rust's `str::trim`,
  `split_once` and UTF-8 byte length; the integer widths, `str::parse`, the
  `as` casts and `try_into`.
- `Vocabulary`: what both generations share: the six filter operators with
  their keywords and SQL symbols, `FilterOp<T>`, `OrderOp`, event statuses
  and user roles with their labels.
- `CoreUtils`, `CoreEvent`, `CoreUser`, `CoreFavorite`, `CoreToken`: the
  current parsers (`FromStr`), their `Display` counterparts, defaults, and
  the JWT claims.
- `LegacyUtils`, `LegacyEvent`, `LegacyUser`, `LegacyFavorite`: the same for
  the older generation. It uses `i64`/`i32` ids and page numbers, and its
  field errors go through `EventError`/`UserError`/`FavoriteError`.
- `SqlBuilder`: sqlx's `QueryBuilder` and its `Separated` helper as classes.
  They hold the statement as a sequence of fragments (literal text or a
  numbered placeholder) and the bound values. `Render` and `Params` give the
  text and the placeholder order.
- `ListQuery`: the loop every `list` runs (`WHERE`/`AND` clauses,
  `ORDER BY` items, `LIMIT`/`OFFSET`), as methods proved against
  `ListFragments`/`ListArgs`.
- `PgEvent`, `PgUser`, `PgFavorite`, `LegacyPgEvent`, `LegacyPgUser`,
  `LegacyPgFavorite`: each repository's statements.
- `DbErrors`, `DbEntities`: driver error classification and row conversion.
- `ApiUtils`, `ApiEvent`, `ApiUser`: the DTO conversions and validators.

The main results proved:

- every filter, order, status, role, operator and token parses back from
  its printed form, including surrounding whitespace where the parser trims;
- each parser's error cases, and which error each one returns;
- every `list` statement has exactly the text it is built to have;
- its placeholders run `$1 .. $n` in order, one per bound value;
- the binds come in a known order;
- filter values never reach the SQL text;
- each `update` statement assigns exactly the column that the change names;
- rows and DTOs convert back and forth without loss where the source's casts
  allow it, and wrap where they do not.

Where the code and its description disagree, the model follows the code:

- a `list` statement has no `ORDER BY` when no order is given;
- page 0 is accepted (the offset then becomes `limit * -1`);
- the page size is bound twice.

## Model

| member | source | states |
|---|---|---|
| Text.SplitOnce | src/core/src/models/utils.rs:28 | `split_once(' ')` splits at the first space: head has no space and head + " " + tail is the input; None iff there is no space |
| Text.Utf8Len | src/presentation/src/api/user/dto.rs:40-52 | `String::len` counts UTF-8 bytes: between one and four per character, exactly one per ASCII character |
| Text.TrimIdempotent | src/core/src/models/utils.rs:29 | trimming twice is trimming once |
| Text.TrimPadded | src/core/src/models/utils.rs:80 | trimming whitespace padding around a token without edge whitespace gives the token back |
| Text.NatToStringInjective | src/core/src/models/favorite.rs:14-18 | distinct numbers print differently |
| RustInt.ParseUnsigned | src/core/src/models/utils.rs:30-35 | `str::parse` into an unsigned width: the empty text and only it is `Empty`; a leading `-` is an invalid digit; a parsed value never exceeds the width's maximum |
| RustInt.ParseSigned | src/domain/utils.rs:45-55 | `str::parse` into a signed width: the empty text and only it is `Empty`; a parsed value lies within the width's range |
| RustInt.ParseUnsignedRoundTrip | src/core/src/models/utils.rs:30-35 | the decimal text of any in-range number parses back to it |
| RustInt.ParseSignedRoundTrip | src/domain/utils.rs:45-55 | the decimal text of any i64, sign included, parses back to it |
| RustInt.AsUnsigned | src/infrastructure/src/db/event/entity.rs:19-34 | `as u64`/`as u32` keeps non-negative values and adds 2^width to negative ones |
| RustInt.AsSigned | src/presentation/src/api/event/dto.rs:71-86 | `as i64`/`as i32` keeps values below 2^(width-1) and subtracts 2^width from the rest |
| RustInt.CastsInverse64 | src/infrastructure/src/db/event/entity.rs:19-34 | `as u64` and `as i64` undo each other |
| RustInt.CastsInverse32 | src/infrastructure/src/db/event/entity.rs:19-34 | `as u32` and `as i32` undo each other |
| RustInt.TryUnsigned | src/presentation/src/api/utils.rs:17-26 | `try_into` to unsigned succeeds iff the value is non-negative and then keeps it |
| Vocabulary.OperatorFromKeyword | src/core/src/models/utils.rs:29-36 | a keyword found in the table is the keyword of the operator it names |
| Vocabulary.OperatorKeywordRoundTrip | src/core/src/models/utils.rs:29-36 | each operator's keyword names it |
| Vocabulary.Operation | src/core/src/models/utils.rs:45-54 | `operation()` is one of the six SQL symbols, the one of the filter's operator |
| Vocabulary.OperationIgnoresValue | src/core/src/models/utils.rs:45-54 | the SQL symbol depends on the operator alone, never on the value |
| Vocabulary.MakeFilterOp | src/core/src/models/utils.rs:30-35 | building a `FilterOp` keeps the operator and the value (`value()` gives it back) |
| Vocabulary.FilterOpDeterminedByKindAndValue | src/core/src/models/utils.rs:56-65 | a `FilterOp` is determined by its operator and `value()` |
| Vocabulary.OrderOpDisplay | src/core/src/models/utils.rs:88-95 | `ASC` / `DESC`, distinct |
| Vocabulary.StatusFromLabel | src/core/src/models/event.rs:28-51 | a label found names the status whose `Display` label it is (exact, case-sensitive match) |
| Vocabulary.RoleFromLabel | src/core/src/models/user.rs:24-47 | a label found names the role whose `Display` label it is (exact, case-sensitive match) |
| Vocabulary.RoleOrderTotal | src/core/src/models/user.rs:17-22 | the derived role order User < Organizer < Admin is a strict total order with the default role at the bottom |
| CoreUtils.ParseU64 | src/core/src/models/utils.rs:30-35 | the u64 parse as a filter value; a failure is `ParseInt` |
| CoreUtils.ParseU32 | src/core/src/models/utils.rs:30-35 | the u32 parse as a filter value; a failure is `ParseInt` |
| CoreUtils.ParseText | src/core/src/models/utils.rs:30-35 | a `String` value parses to itself and never fails |
| CoreUtils.ParseU64RoundTrip | src/core/src/models/utils.rs:30-35 | every u64's decimal text parses back |
| CoreUtils.ParseU32RoundTrip | src/core/src/models/utils.rs:30-35 | every u32's decimal text parses back |
| CoreUtils.ParseFilterOp | src/core/src/models/utils.rs:22-42 | no space gives `Filter(s)`; an unknown trimmed keyword gives `FilterOp(s)`; Ok means the keyword names the operator and the value parsed from the tail |
| CoreUtils.ParseFilterOpKnown | src/core/src/models/utils.rs:28-36 | with a known keyword the result is the value parser's result wrapped in that operator, its error passed through unchanged |
| CoreUtils.ParseFilterOpOf | src/core/src/models/utils.rs:28-36 | `keyword value` gives the value parser's result on `value`, wrapped in that keyword's operator |
| CoreUtils.ParseFilterOpText | src/core/src/models/utils.rs:22-42 | `keyword value` parses back to the filter whose value parses from `value` |
| CoreUtils.ParseOrderOp | src/core/src/models/utils.rs:76-86 | trimmed `asc`/`desc` give Asc/Desc; anything else is `OrderOp(s)` with the untrimmed text |
| CoreUtils.ParseOrderOpRoundTrip | src/core/src/models/utils.rs:76-86 | a keyword in whitespace padding parses to its direction |
| CoreUtils.ParseOrderOpKeyword | src/core/src/models/utils.rs:76-86 | each direction's keyword parses to it |
| CoreUtils.OrderOpDisplayNotParsed | src/core/src/models/utils.rs:76-95 | the `Display` text (`ASC`/`DESC`) is not accepted by the parser, which wants lower case |
| CoreEvent.ParseStatus | src/core/src/models/event.rs:28-39 | Ok iff the trimmed text is a status label, whose status is the result; otherwise `Parse(s)` |
| CoreEvent.StatusRoundTrip | src/core/src/models/event.rs:28-51 | a status label in whitespace padding parses back to the status |
| CoreEvent.FilterFieldOf | src/core/src/models/event.rs:91-95 | exactly `organizer_id status title cost` are filter fields, each naming its column |
| CoreEvent.ParseEventFilter | src/core/src/models/event.rs:84-101 | the token is trimmed; no space gives `Filter`; an unknown field gives `Filter` with the trimmed token; a known field gives exactly that field's parse of the tail after the first space, errors included; Ok names the field written |
| CoreEvent.OrganizerIdFilterOf | src/core/src/models/event.rs:91 | Ok iff the tail parses as a `FilterOp<u64>`, and then exactly that variant wrapping the parsed operation; otherwise the tail parser's own error, unchanged |
| CoreEvent.StatusFilterOf | src/core/src/models/event.rs:92 | Ok iff the tail parses as a `FilterOp<EventStatus>`, and then exactly that variant wrapping the parsed operation; otherwise the tail parser's own error, unchanged |
| CoreEvent.TitleFilterOf | src/core/src/models/event.rs:93 | Ok iff the tail parses as a `FilterOp<String>`, and then exactly that variant wrapping the parsed operation; otherwise the tail parser's own error, unchanged |
| CoreEvent.CostFilterOf | src/core/src/models/event.rs:94 | Ok iff the tail parses as a `FilterOp<u32>`, and then exactly that variant wrapping the parsed operation; otherwise the tail parser's own error, unchanged |
| CoreEvent.ParseEventFilterOf | src/core/src/models/event.rs:90-95 | a known field sends the tail to that field's arm; an Ok result names that field |
| CoreEvent.EventFilterOfText | src/core/src/models/event.rs:91-95 | for each field, `op value` parses back to the filter |
| CoreEvent.EventFilterRoundTrip | src/core/src/models/event.rs:84-101 | a printed filter in whitespace padding parses back to it (title values without edge whitespace) |
| CoreEvent.EventOrderOf | src/core/src/models/event.rs:113-139 | exactly the order fields give an order, on that column with the direction given |
| CoreEvent.ParseEventOrder | src/core/src/models/event.rs:113-139 | `field dir` or a bare field (ascending); unknown fields give `Order(s)`, bad directions `OrderOp`; a known field followed by a space is Ok iff the direction after the space parses, and a bad direction gives exactly `OrderOp` of that text; a known bare field is always Ok |
| CoreEvent.EventOrderRoundTrip | src/core/src/models/event.rs:113-139 | `column dir` parses back to the order, and so does a bare column for Asc |
| CoreEvent.DefaultEventOrder | src/core/src/models/event.rs:141-144 | the default order is what `"id"` parses to |
| CoreUser.ParseRole | src/core/src/models/user.rs:24-35 | Ok iff the trimmed text is a role label, whose role is the result; otherwise `Parse(s)` |
| CoreUser.RoleRoundTrip | src/core/src/models/user.rs:24-47 | a role label in whitespace padding parses back to the role |
| CoreUser.ParseUserFilter | src/core/src/models/user.rs:71-86 | the token is trimmed; no space or unknown field gives `Filter`; a known field gives exactly that field's parse of the tail after the first space, errors included; Ok names the field written |
| CoreUser.ParseUserFilterOf | src/core/src/models/user.rs:77-79 | `role`: Ok iff the tail parses as a `FilterOp<UserRole>`, then `Role` of it; `login`: likewise with `FilterOp<String>` and `Login`; an error is the tail parser's own; an Ok result names the field |
| CoreUser.UserFilterOfText | src/core/src/models/user.rs:76-83 | for each field, `op value` parses back to the filter |
| CoreUser.UserFilterRoundTrip | src/core/src/models/user.rs:71-86 | a printed filter in whitespace padding parses back to it |
| CoreUser.UserOrderOf | src/core/src/models/user.rs:96-118 | exactly the order fields give an order, on that column with the direction given |
| CoreUser.ParseUserOrder | src/core/src/models/user.rs:96-118 | `field dir` or a bare field (ascending); unknown fields give `Order(s)`, bad directions `OrderOp`; a known field followed by a space is Ok iff the direction after the space parses, and a bad direction gives exactly `OrderOp` of that text; a known bare field is always Ok |
| CoreUser.UserOrderRoundTrip | src/core/src/models/user.rs:96-118 | `column dir` and, for Asc, a bare column parse back to the order |
| CoreUser.DefaultUserOrder | src/core/src/models/user.rs:120-124 | the default order is what `"id"` parses to |
| CoreFavorite.FavoriteIdTextSplit | src/core/src/models/favorite.rs:14-18 | after `user `, the first space ends the user id |
| CoreFavorite.FavoriteIdTextInjective | src/core/src/models/favorite.rs:14-18 | different favourite ids print differently |
| CoreFavorite.ParseFavoriteFilter | src/core/src/models/favorite.rs:40-54 | no space or a field other than `event_id` gives `Filter` with the trimmed token; otherwise the result is the `FilterOp<u64>` parse of the tail |
| CoreFavorite.FavoriteFilterRoundTrip | src/core/src/models/favorite.rs:40-54 | a printed filter in whitespace padding parses back to it |
| CoreFavorite.FavoriteOrderOf | src/core/src/models/favorite.rs:63-83 | exactly `event_id created_at updated_at` give an order |
| CoreFavorite.ParseFavoriteOrder | src/core/src/models/favorite.rs:63-83 | `field dir` or a bare field (ascending); unknown fields give `Order(s)`, bad directions `OrderOp`; a known field followed by a space is Ok iff the direction after the space parses, and a bad direction gives exactly `OrderOp` of that text; a known bare field is always Ok |
| CoreFavorite.FavoriteOrderRoundTrip | src/core/src/models/favorite.rs:63-83 | `column dir` and, for Asc, a bare column parse back to the order |
| CoreFavorite.DefaultFavoriteOrder | src/core/src/models/favorite.rs:85-89 | the default order is what `"event_id"` parses to |
| CoreToken.ParseToken | src/core/src/models/token.rs:70-80 | exactly `access` and `refresh`, untrimmed, are tokens; anything else is `Parse(s)` |
| CoreToken.TokenRoundTrip | src/core/src/models/token.rs:70-89 | a token's `Display` label parses back to it |
| CoreToken.NewAccess | src/core/src/models/token.rs:115-125 | issuer, subject and role as given, audience access, issued and valid from now, expiring after the access lifetime |
| CoreToken.NewRefresh | src/core/src/models/token.rs:127-137 | the same with audience refresh and the refresh lifetime |
| CoreToken.AudienceExclusive | src/core/src/models/token.rs:147-153 | every claim set is exactly one of access and refresh; new access and refresh claims are what they say |
| CoreToken.NewRefreshIsNewAccessRetargeted | src/core/src/models/token.rs:115-137 | refresh claims are access claims with another audience and expiry |
| LegacyUtils.DefaultOffset | src/domain/utils.rs:18-25 | the default page is 1 and the default page size 50 |
| LegacyUtils.ParseI64 | src/domain/utils.rs:45-55 | the i64 parse as a filter value; a failure is `ParseInt` |
| LegacyUtils.ParseU32 | src/domain/utils.rs:45-55 | the u32 parse as a filter value; a failure is `ParseInt` |
| LegacyUtils.ParseText | src/domain/utils.rs:45-55 | a `String` value parses to itself |
| LegacyUtils.ParseI64RoundTrip | src/domain/utils.rs:45-55 | every i64's decimal text parses back |
| LegacyUtils.ParseU32RoundTrip | src/domain/utils.rs:45-55 | every u32's decimal text parses back |
| LegacyUtils.ParseFilterOp | src/domain/utils.rs:38-58 | no space gives `Filter(s)`; an unknown keyword gives `FilterOp(s)`; Ok means the keyword names the operator and the value parsed |
| LegacyUtils.ParseFilterOpKnown | src/domain/utils.rs:44-53 | with a known keyword the value parser's error passes through unchanged |
| LegacyUtils.ParseFilterOpOf | src/domain/utils.rs:44-53 | `keyword value` gives the value parser's result on `value`, wrapped in that keyword's operator |
| LegacyUtils.ParseFilterOpText | src/domain/utils.rs:38-58 | `keyword value` parses back to the filter |
| LegacyUtils.ParseOrderOp | src/domain/utils.rs:92-102 | trimmed `asc`/`desc`; otherwise `OrderOp(s)` |
| LegacyUtils.ParseOrderOpRoundTrip | src/domain/utils.rs:92-102 | a keyword in whitespace padding parses to its direction |
| LegacyUtils.ParseOrderOpKeyword | src/domain/utils.rs:92-102 | each direction's keyword parses to it |
| LegacyUtils.OrderOpDisplayNotParsed | src/domain/utils.rs:92-111 | the upper-case `Display` text is not accepted by the parser |
| LegacyEvent.ParseStatus | src/domain/event/model.rs:32-43 | Ok iff the trimmed text is a status label; otherwise `EventError::Status(s)` with the untrimmed text |
| LegacyEvent.ParseStatusValue | src/domain/event/model.rs:100 | as a filter value, a bad status becomes `EventError::Status(s)` |
| LegacyEvent.StatusRoundTrip | src/domain/event/model.rs:32-55 | a status label in whitespace padding parses back |
| LegacyEvent.FilterFieldOf | src/domain/event/model.rs:98-103 | exactly the four filter fields are known, each naming its column |
| LegacyEvent.ParseEventFilter | src/domain/event/model.rs:92-109 | no space gives `DomainError::Filter`; an unknown field gives `EventError::Filter` with the trimmed token; a known field gives exactly that field's parse of the tail after the first space, errors included; Ok names the field written |
| LegacyEvent.OrganizerIdFilterOf | src/domain/event/model.rs:99 | Ok iff the tail parses as a `FilterOp<i64>`, and then exactly that variant wrapping the parsed operation; otherwise the tail parser's own error, unchanged |
| LegacyEvent.StatusFilterOf | src/domain/event/model.rs:100 | Ok iff the tail parses as a `FilterOp<EventStatus>`, and then exactly that variant wrapping the parsed operation; otherwise the tail parser's own error, unchanged |
| LegacyEvent.TitleFilterOf | src/domain/event/model.rs:101 | Ok iff the tail parses as a `FilterOp<String>`, and then exactly that variant wrapping the parsed operation; otherwise the tail parser's own error, unchanged |
| LegacyEvent.CostFilterOf | src/domain/event/model.rs:102 | Ok iff the tail parses as a `FilterOp<u32>`, and then exactly that variant wrapping the parsed operation; otherwise the tail parser's own error, unchanged |
| LegacyEvent.ParseEventFilterOf | src/domain/event/model.rs:98-102 | a known field sends the tail to that field's arm; an Ok result names that field |
| LegacyEvent.EventFilterOfText | src/domain/event/model.rs:98-102 | for each field, `op value` parses back to the filter |
| LegacyEvent.EventFilterRoundTrip | src/domain/event/model.rs:92-109 | a printed filter in whitespace padding parses back to it |
| LegacyEvent.EventOrderOf | src/domain/event/model.rs:121-147 | exactly the order fields give an order |
| LegacyEvent.ParseEventOrder | src/domain/event/model.rs:121-147 | `field dir` or a bare field (ascending); unknown fields give the order error, bad directions `OrderOp`; a known field followed by a space is Ok iff the direction after the space parses, and a bad direction gives exactly `OrderOp` of that text; a known bare field is always Ok |
| LegacyEvent.EventOrderRoundTrip | src/domain/event/model.rs:121-147 | `column dir` and, for Asc, a bare column parse back |
| LegacyEvent.DefaultEventOrder | src/domain/event/model.rs:149-152 | the default order is what `"id"` parses to |
| LegacyUser.ParseRole | src/domain/user/model.rs:27-38 | Ok iff the trimmed text is a role label; otherwise `UserError::Role(s)` with the untrimmed text |
| LegacyUser.ParseRoleValue | src/domain/user/model.rs:84 | as a filter value, a bad role becomes `UserError::Role(s)` |
| LegacyUser.RoleRoundTrip | src/domain/user/model.rs:27-50 | a role label in whitespace padding parses back |
| LegacyUser.ParseUserFilter | src/domain/user/model.rs:77-92 | no space gives `DomainError::Filter`; an unknown field gives `UserError::Filter`; a known field gives exactly that field's parse of the tail after the first space, errors included; Ok names the field written |
| LegacyUser.ParseUserFilterOf | src/domain/user/model.rs:83-85 | `role`: Ok iff the tail parses as a `FilterOp<UserRole>`, then `Role` of it; `login`: likewise with `FilterOp<String>` and `Login`; an error is the tail parser's own; an Ok result names the field |
| LegacyUser.UserFilterOfText | src/domain/user/model.rs:83-85 | for each field, `op value` parses back to the filter |
| LegacyUser.UserFilterRoundTrip | src/domain/user/model.rs:77-92 | a printed filter in whitespace padding parses back to it |
| LegacyUser.UserOrderOf | src/domain/user/model.rs:102-124 | exactly the order fields give an order |
| LegacyUser.ParseUserOrder | src/domain/user/model.rs:102-124 | `field dir` or a bare field; unknown fields and bad directions are errors; a known field followed by a space is Ok iff the direction after the space parses, and a bad direction gives exactly `OrderOp` of that text; a known bare field is always Ok |
| LegacyUser.UserOrderRoundTrip | src/domain/user/model.rs:102-124 | `column dir` and, for Asc, a bare column parse back |
| LegacyUser.DefaultUserOrder | src/domain/user/model.rs:126-130 | the default order is what `"id"` parses to |
| LegacyFavorite.ParseFavoriteFilter | src/domain/favorite/model.rs:35-49 | only `event_id` is a filter field; the tail is a `FilterOp<i64>` |
| LegacyFavorite.FavoriteFilterRoundTrip | src/domain/favorite/model.rs:35-49 | a printed filter in whitespace padding parses back to it |
| LegacyFavorite.FavoriteOrderOf | src/domain/favorite/model.rs:58-78 | exactly the three order fields give an order |
| LegacyFavorite.ParseFavoriteOrder | src/domain/favorite/model.rs:58-78 | `field dir` or a bare field; unknown fields and bad directions are errors; a known field followed by a space is Ok iff the direction after the space parses, and a bad direction gives exactly `OrderOp` of that text; a known bare field is always Ok |
| LegacyFavorite.FavoriteOrderRoundTrip | src/domain/favorite/model.rs:58-78 | `column dir` and, for Asc, a bare column parse back |
| LegacyFavorite.DefaultFavoriteOrder | src/domain/favorite/model.rs:80-84 | the default order is what `"event_id"` parses to |
| SqlBuilder.QueryBuilder.constructor | src/infrastructure/src/db/event/postgresql.rs:63 | a builder starts with its initial text and no binds |
| SqlBuilder.QueryBuilder.Push | src/infrastructure/src/db/event/postgresql.rs:117-120 | `push` appends text and binds nothing |
| SqlBuilder.QueryBuilder.PushBind | src/infrastructure/src/db/event/postgresql.rs:117 | `push_bind` appends the value and the placeholder `$n`, n being the new number of binds |
| SqlBuilder.QueryBuilder.Build | src/infrastructure/src/db/event/postgresql.rs:98-100 | the built query is the builder's text and binds |
| SqlBuilder.Separated.constructor | src/infrastructure/src/db/event/postgresql.rs:66 | `separated(sep)` starts before its first item |
| SqlBuilder.Separated.Push | src/infrastructure/src/db/event/postgresql.rs:69-76 | `push` writes the separator before every item but the first, then the text |
| SqlBuilder.Separated.PushUnseparated | src/infrastructure/src/db/event/postgresql.rs:70-76 | `push_unseparated` appends text with no separator |
| SqlBuilder.Separated.PushBindUnseparated | src/infrastructure/src/db/event/postgresql.rs:70-76 | `push_bind_unseparated` binds the value with the next placeholder and no separator |
| SqlBuilder.PushWhereId | src/infrastructure/src/db/event/postgresql.rs:117 | `WHERE id = $n ` with the id bound next |
| SqlBuilder.NumberedSnoc | src/infrastructure/src/db/event/postgresql.rs:63-100 | appending text, or a bind with its next placeholder, keeps placeholders `$1 .. $n` in order |
| SqlBuilder.Template | src/infrastructure/src/db/event/postgresql.rs:44-56 | a fixed statement with k binds has placeholders `$1 .. $k` in order |
| SqlBuilder.TemplateRender | src/infrastructure/src/db/event/postgresql.rs:44-56 | its text is the literals with `$1 .. $k` between them |
| SqlBuilder.UpdateShape | src/infrastructure/src/db/event/postgresql.rs:105-126 | an update reads `<head><column> = $1 WHERE id = $2 <tail>`, placeholders `$1, $2` |
| ListQuery.ClauseParams | src/infrastructure/src/db/event/postgresql.rs:69-76 | one filter writes `column op $n` with exactly one placeholder |
| ListQuery.SortParams | src/infrastructure/src/db/event/postgresql.rs:84-92 | one order writes `column ASC|DESC`, no placeholder |
| ListQuery.PageParams | src/infrastructure/src/db/event/postgresql.rs:95-96 | the paging tail writes `LIMIT $a OFFSET ($b * ($c - 1))` with three consecutive placeholders |
| ListQuery.PushClause | src/infrastructure/src/db/event/postgresql.rs:66-77 | one filter: separator unless first, its column, its symbol, its value bound next |
| ListQuery.PushSort | src/infrastructure/src/db/event/postgresql.rs:80-93 | one order: separator unless first, column, direction, nothing bound |
| ListQuery.PushClauses | src/infrastructure/src/db/event/postgresql.rs:66-77 | the filter loop appends the joined clauses and binds the filter values in order |
| ListQuery.PushWhere | src/infrastructure/src/db/event/postgresql.rs:65-77 | `WHERE`/`AND` and the clauses when there are filters, nothing otherwise |
| ListQuery.PushSorts | src/infrastructure/src/db/event/postgresql.rs:80-93 | the order loop appends the comma-joined items, binding nothing |
| ListQuery.PushOrderBy | src/infrastructure/src/db/event/postgresql.rs:79-93 | `ORDER BY` and the items when there are orders, nothing otherwise |
| ListQuery.PushPage | src/infrastructure/src/db/event/postgresql.rs:95-96 | the paging tail, binding page size, page size, page |
| ListQuery.PushListTail | src/infrastructure/src/db/event/postgresql.rs:65-96 | the whole list tail is `ListFragments` with binds `ListArgs` |
| ListQuery.ListNumbered | src/infrastructure/src/db/event/postgresql.rs:58-103 | after a well-numbered head, the list statement's placeholders are `$1 .. $n`, one per bind |
| ListQuery.ValuesNotInText | src/infrastructure/src/db/event/postgresql.rs:65-77 | the statement depends on the filters' columns and operators, not their values |
| ListQuery.ListRendered | src/infrastructure/src/db/event/postgresql.rs:58-103 | the list text is head, optional `WHERE` section, optional `ORDER BY` section, paging tail |
| ListQuery.ListArgsAt | src/infrastructure/src/db/event/postgresql.rs:58-103 | the binds are the head's, then each filter value in order, then page size twice and the page |
| PgEvent.FilterClause | src/infrastructure/src/db/event/postgresql.rs:66-77 | each filter on its own column with its operator's symbol; ids and cost cast back losslessly, the status bound as its label, the title as given |
| PgEvent.SortOf | src/infrastructure/src/db/event/postgresql.rs:80-93 | each order on its own column and direction |
| PgEvent.List | src/infrastructure/src/db/event/postgresql.rs:58-103 | the `list` statement and binds, built by the loops, equal `ListStatement`/`ListBinds` |
| PgEvent.ListText | src/infrastructure/src/db/event/postgresql.rs:58-103 | the `list` text: column list, `WHERE` filters joined by `AND`, `ORDER BY` items, paging |
| PgEvent.ListNumberedBinds | src/infrastructure/src/db/event/postgresql.rs:58-103 | the `list` placeholders are `$1 .. $n`, one per bind |
| PgEvent.ListBindsOrder | src/infrastructure/src/db/event/postgresql.rs:65-96 | binds: each filter value in filter order, then page size twice, then page, cast `as i32` |
| PgEvent.ListValuesNotInText | src/infrastructure/src/db/event/postgresql.rs:65-77 | filter values never reach the text |
| PgEvent.UpdateColumn | src/infrastructure/src/db/event/postgresql.rs:109-115 | each change names a distinct column, the one it updates |
| PgEvent.Assignment | src/infrastructure/src/db/event/postgresql.rs:109-115 | each change writes `<column> = ` |
| PgEvent.UpdateValueDecodes | src/infrastructure/src/db/event/postgresql.rs:109-115 | the bound value gives the change's value back: the cost casts back, the status label parses back |
| PgEvent.PushChange | src/infrastructure/src/db/event/postgresql.rs:109-116 | one assignment and one bind |
| PgEvent.Update | src/infrastructure/src/db/event/postgresql.rs:105-126 | `update` equals `UpdateStatement` with binds value then id |
| PgEvent.UpdateText | src/infrastructure/src/db/event/postgresql.rs:105-126 | `UPDATE "event" SET <column> = $1 WHERE id = $2 RETURNING ...` |
| PgEvent.Create | src/infrastructure/src/db/event/postgresql.rs:22-42 | `create` binds its six arguments, already `i64`/`i32`, in column order as `$1 .. $6` |
| PgEvent.CreateSql | src/infrastructure/src/db/event/postgresql.rs:22-42 | the `INSERT` text with `$1 .. $6` |
| PgEvent.Get | src/infrastructure/src/db/event/postgresql.rs:44-56 | `get` binds only the id, as `$1` |
| PgEvent.GetSql | src/infrastructure/src/db/event/postgresql.rs:46-50 | `get` reads `SELECT <columns> FROM "event" WHERE id = $1` |
| PgEvent.Delete | src/infrastructure/src/db/event/postgresql.rs:128-140 | `delete` binds only the id, as `$1` |
| PgEvent.DeleteSql | src/infrastructure/src/db/event/postgresql.rs:130-134 | `delete` reads `DELETE FROM "event" WHERE id = $1 RETURNING <columns>` |
| PgUser.FilterClause | src/infrastructure/src/db/user/postgresql.rs:42-52 | role and login filters on their columns with their symbols; the role label parses back |
| PgUser.SortOf | src/infrastructure/src/db/user/postgresql.rs:54-66 | each order on its own column and direction |
| PgUser.List | src/infrastructure/src/db/user/postgresql.rs:36-76 | the `list` statement and binds equal `ListStatement`/`ListBinds` |
| PgUser.ListText | src/infrastructure/src/db/user/postgresql.rs:36-76 | the `list` text, section by section |
| PgUser.ListNumberedBinds | src/infrastructure/src/db/user/postgresql.rs:36-76 | placeholders `$1 .. $n`, one per bind |
| PgUser.ListBindsOrder | src/infrastructure/src/db/user/postgresql.rs:42-69 | the filter values, then page size twice and page |
| PgUser.ListValuesNotInText | src/infrastructure/src/db/user/postgresql.rs:42-52 | filter values never reach the text |
| PgUser.UpdateColumn | src/infrastructure/src/db/user/postgresql.rs:97-101 | each change names a distinct column |
| PgUser.Assignment | src/infrastructure/src/db/user/postgresql.rs:97-101 | each change writes `<column> = ` |
| PgUser.UpdateValueDecodes | src/infrastructure/src/db/user/postgresql.rs:97-101 | the role label parses back to the role; text is bound as given |
| PgUser.PushChange | src/infrastructure/src/db/user/postgresql.rs:97-102 | one assignment and one bind |
| PgUser.Update | src/infrastructure/src/db/user/postgresql.rs:93-112 | `update` equals `UpdateStatement` with binds value then id |
| PgUser.UpdateText | src/infrastructure/src/db/user/postgresql.rs:93-112 | `UPDATE "user" SET <column> = $1 WHERE id = $2 RETURNING ...` |
| PgUser.Get | src/infrastructure/src/db/user/postgresql.rs:22-34 | `get` binds only the id, as `$1` |
| PgUser.GetSql | src/infrastructure/src/db/user/postgresql.rs:24-28 | `get` reads `SELECT <columns> FROM "user" WHERE id = $1` |
| PgUser.Create | src/infrastructure/src/db/user/postgresql.rs:78-91 | `create` binds login then hash as `$1, $2` |
| PgUser.CreateSql | src/infrastructure/src/db/user/postgresql.rs:78-91 | the `INSERT` text with `$1, $2` |
| PgUser.Delete | src/infrastructure/src/db/user/postgresql.rs:114-126 | `delete` binds only the id |
| PgUser.DeleteSql | src/infrastructure/src/db/user/postgresql.rs:116-120 | `delete` reads `DELETE FROM "user" WHERE id = $1 RETURNING <columns>` |
| PgUser.GetByLogin | src/infrastructure/src/db/user/postgresql.rs:128-140 | `get_by_login` binds only the login |
| PgUser.GetByLoginSql | src/infrastructure/src/db/user/postgresql.rs:130-134 | `get_by_login` reads `SELECT <columns> FROM "user" WHERE login = $1` |
| PgFavorite.FilterClause | src/infrastructure/src/db/favorite/postgresql.rs:72-81 | `event_id` with the operator's symbol, the id cast back losslessly |
| PgFavorite.SortOf | src/infrastructure/src/db/favorite/postgresql.rs:83-94 | each order on its own column and direction |
| PgFavorite.HeadFacts | src/infrastructure/src/db/favorite/postgresql.rs:57-70 | the head ends in the user id's placeholder `$1` |
| PgFavorite.List | src/infrastructure/src/db/favorite/postgresql.rs:50-104 | the `list` statement (user id first, filters led by `AND`) equals `ListStatement`/`ListBinds` |
| PgFavorite.ListText | src/infrastructure/src/db/favorite/postgresql.rs:50-104 | `... WHERE f.user_id = $1`, then ` AND ` filters, `ORDER BY`, paging from `$k+2` |
| PgFavorite.ListNumberedBinds | src/infrastructure/src/db/favorite/postgresql.rs:50-104 | placeholders `$1 .. $n`, one per bind |
| PgFavorite.ListBindsOrder | src/infrastructure/src/db/favorite/postgresql.rs:70-97 | user id, then the filter ids, then page size twice and page |
| PgFavorite.ListValuesNotInText | src/infrastructure/src/db/favorite/postgresql.rs:72-81 | filter values never reach the text |
| PgFavorite.Get | src/infrastructure/src/db/favorite/postgresql.rs:21-48 | user id then event id as `$1, $2` |
| PgFavorite.GetSql | src/infrastructure/src/db/favorite/postgresql.rs:21-48 | `... WHERE f.user_id = $1 AND f.event_id = $2` |
| PgFavorite.Create | src/infrastructure/src/db/favorite/postgresql.rs:106-119 | user id then event id as `$1, $2` |
| PgFavorite.CreateSql | src/infrastructure/src/db/favorite/postgresql.rs:106-119 | the `INSERT` text with `$1, $2` |
| PgFavorite.Delete | src/infrastructure/src/db/favorite/postgresql.rs:121-135 | user id then event id as `$1, $2` |
| PgFavorite.DeleteSql | src/infrastructure/src/db/favorite/postgresql.rs:121-135 | the `DELETE` text with `$1, $2` |
| LegacyPgEvent.FilterClause | src/infrastructure/db/event.rs:57-69 | each filter on its column with its symbol; the status bound as the `status` enum label |
| LegacyPgEvent.SortOf | src/infrastructure/db/event.rs:71-85 | each order on its own column and direction |
| LegacyPgEvent.List | src/infrastructure/db/event.rs:50-91 | the `list` statement and binds equal `ListStatement`/`ListBinds` |
| LegacyPgEvent.ListText | src/infrastructure/db/event.rs:50-91 | the `list` text, section by section |
| LegacyPgEvent.ListNumberedBinds | src/infrastructure/db/event.rs:50-91 | placeholders `$1 .. $n`, one per bind |
| LegacyPgEvent.ListBindsOrder | src/infrastructure/db/event.rs:57-88 | filter values, then page size twice and page |
| LegacyPgEvent.ListValuesNotInText | src/infrastructure/db/event.rs:57-69 | filter values never reach the text |
| LegacyPgEvent.UpdateColumn | src/infrastructure/db/event.rs:93-110 | each change names a distinct column |
| LegacyPgEvent.Assignment | src/infrastructure/db/event.rs:93-110 | each change writes `<column> = ` |
| LegacyPgEvent.UpdateValueDecodes | src/infrastructure/db/event.rs:93-110 | the bound value gives the change's value back |
| LegacyPgEvent.PushChange | src/infrastructure/db/event.rs:93-110 | one assignment and one bind |
| LegacyPgEvent.Update | src/infrastructure/db/event.rs:93-110 | `update` equals `UpdateStatement` with binds value then id |
| LegacyPgEvent.UpdateText | src/infrastructure/db/event.rs:93-110 | `UPDATE "event" SET <column> = $1 WHERE id = $2 RETURNING ...` |
| LegacyPgEvent.Create | src/infrastructure/db/event.rs:19-35 | `create` binds the six fields as `$1 .. $6` |
| LegacyPgEvent.CreateSql | src/infrastructure/db/event.rs:19-35 | the `INSERT` text with `$1 .. $6` |
| LegacyPgEvent.Get | src/infrastructure/db/event.rs:37-48 | `get` binds only the id |
| LegacyPgEvent.GetSql | src/infrastructure/db/event.rs:39-43 | `get` reads `SELECT <columns> FROM "event" WHERE id = $1` |
| LegacyPgEvent.Delete | src/infrastructure/db/event.rs:112-123 | `delete` binds only the id |
| LegacyPgEvent.DeleteSql | src/infrastructure/db/event.rs:114-118 | `delete` reads `DELETE FROM "event" WHERE id = $1 RETURNING <columns>` |
| LegacyPgUser.FilterClause | src/infrastructure/db/user.rs:31-67 | the role bound as the `user_role` enum label that parses back, the login as text |
| LegacyPgUser.SortOf | src/infrastructure/db/user.rs:31-67 | each order on its own column and direction |
| LegacyPgUser.List | src/infrastructure/db/user.rs:31-67 | the `list` statement and binds equal `ListStatement`/`ListBinds` |
| LegacyPgUser.ListText | src/infrastructure/db/user.rs:31-67 | the `list` text, section by section |
| LegacyPgUser.ListNumberedBinds | src/infrastructure/db/user.rs:31-67 | placeholders `$1 .. $n`, one per bind |
| LegacyPgUser.ListBindsOrder | src/infrastructure/db/user.rs:31-67 | filter values, then page size twice and page |
| LegacyPgUser.ListValuesNotInText | src/infrastructure/db/user.rs:31-67 | filter values never reach the text |
| LegacyPgUser.UpdateColumn | src/infrastructure/db/user.rs:83-98 | each change names a distinct column |
| LegacyPgUser.Assignment | src/infrastructure/db/user.rs:83-98 | each change writes `<column> = ` |
| LegacyPgUser.UpdateValueDecodes | src/infrastructure/db/user.rs:83-98 | the role enum label parses back to the role |
| LegacyPgUser.PushChange | src/infrastructure/db/user.rs:83-98 | one assignment and one bind |
| LegacyPgUser.Update | src/infrastructure/db/user.rs:83-98 | `update` equals `UpdateStatement` with binds value then id |
| LegacyPgUser.UpdateText | src/infrastructure/db/user.rs:83-98 | `UPDATE "user" SET <column> = $1 WHERE id = $2 RETURNING ...` |
| LegacyPgUser.Get | src/infrastructure/db/user.rs:18-29 | `get` binds only the id |
| LegacyPgUser.GetSql | src/infrastructure/db/user.rs:20-24 | `get` reads `SELECT <columns, no hash> FROM "user" WHERE id = $1` |
| LegacyPgUser.Create | src/infrastructure/db/user.rs:69-81 | login then password hash as `$1, $2` |
| LegacyPgUser.CreateSql | src/infrastructure/db/user.rs:69-81 | the `INSERT` text with `$1, $2` |
| LegacyPgUser.Delete | src/infrastructure/db/user.rs:100-111 | `delete` binds only the id |
| LegacyPgUser.DeleteSql | src/infrastructure/db/user.rs:102-106 | `delete` reads `DELETE FROM "user" WHERE id = $1 RETURNING <columns, no hash>` |
| LegacyPgUser.Login | src/infrastructure/db/user.rs:113-124 | `login` selects the hash too and binds only the login |
| LegacyPgUser.LoginSql | src/infrastructure/db/user.rs:115-119 | `login` reads the columns with `password_hash` `FROM "user" WHERE login = $1` |
| LegacyPgFavorite.FilterClause | src/infrastructure/db/favorite.rs:48-96 | `event_id` with the operator's symbol and the id bound as is |
| LegacyPgFavorite.SortOf | src/infrastructure/db/favorite.rs:48-96 | each order on its own column and direction |
| LegacyPgFavorite.HeadFacts | src/infrastructure/db/favorite.rs:48-96 | the head ends in the user id's placeholder `$1` |
| LegacyPgFavorite.List | src/infrastructure/db/favorite.rs:48-96 | the `list` statement and binds equal `ListStatement`/`ListBinds` |
| LegacyPgFavorite.ListText | src/infrastructure/db/favorite.rs:48-96 | `... WHERE f.user_id = $1`, then ` AND ` filters, `ORDER BY`, paging |
| LegacyPgFavorite.ListNumberedBinds | src/infrastructure/db/favorite.rs:48-96 | placeholders `$1 .. $n`, one per bind |
| LegacyPgFavorite.ListBindsOrder | src/infrastructure/db/favorite.rs:48-96 | user id, filter ids, then page size twice and page |
| LegacyPgFavorite.ListValuesNotInText | src/infrastructure/db/favorite.rs:48-96 | filter values never reach the text |
| LegacyPgFavorite.Get | src/infrastructure/db/favorite.rs:22-46 | user id then event id as `$1, $2` |
| LegacyPgFavorite.GetSql | src/infrastructure/db/favorite.rs:22-46 | `... WHERE f.user_id = $1 AND f.event_id = $2` |
| LegacyPgFavorite.Create | src/infrastructure/db/favorite.rs:98-110 | user id then event id as `$1, $2` |
| LegacyPgFavorite.CreateSql | src/infrastructure/db/favorite.rs:98-110 | the `INSERT` text with `$1, $2` |
| LegacyPgFavorite.Delete | src/infrastructure/db/favorite.rs:112-125 | user id then event id as `$1, $2` |
| LegacyPgFavorite.DeleteSql | src/infrastructure/db/favorite.rs:112-125 | the `DELETE` text with `$1, $2` |
| DbErrors.FromSqlx | src/infrastructure/src/db/error.rs:19-43 | codes 23503 and 23505 with table and column become the matching violation carrying both and the source; without them it panics (None); anything else is `Other` |
| DbErrors.FromMigrate | src/infrastructure/src/db/error.rs:45-49 | a migration error is always `Other`, carrying it |
| DbEntities.EventFromEntity | src/infrastructure/src/db/event/entity.rs:19-34 | fails (panics) iff the status does not parse; the casts lose nothing; the other fields are copied |
| DbEntities.EventEntityRoundTrip | src/infrastructure/src/db/event/entity.rs:19-34 | a stored event reads back as itself |
| DbEntities.EventNegativeIdWraps | src/infrastructure/src/db/event/entity.rs:19-34 | a negative stored id reads as id + 2^64 |
| DbEntities.UserFromEntity | src/infrastructure/src/db/user/entity.rs:16-25 | fails iff the role does not parse; the id cast loses nothing; the hash is dropped |
| DbEntities.UserHashDropped | src/infrastructure/src/db/user/entity.rs:16-25 | the hash does not affect the model |
| DbEntities.UserEntityRoundTrip | src/infrastructure/src/db/user/entity.rs:16-25 | a stored user reads back as itself, whatever its hash |
| DbEntities.FavoriteFromEntity | src/infrastructure/src/db/favorite/entity.rs:14-23 | total; id casts lose nothing; timestamps copied |
| DbEntities.FavoriteEntityRoundTrip | src/infrastructure/src/db/favorite/entity.rs:14-23 | a stored favourite reads back as itself |
| DbEntities.ProjectionAsEventRow | src/infrastructure/src/db/favorite/entity.rs:41-61 | the projection converts as its event columns do, with the favourite's timestamps |
| ApiUtils.OffsetFromDto | src/presentation/src/api/utils.rs:17-26 | Ok iff page and page size are non-negative, keeping both; otherwise `LsThanZero` |
| ApiUtils.DefaultOffsetDto | src/presentation/src/api/utils.rs:28-35 | the default request offset is page 1, page size 50 |
| ApiUtils.OffsetFromDtoOnto | src/presentation/src/api/utils.rs:17-26 | every offset whose numbers fit in i32 comes back from the request carrying them |
| ApiEvent.StatusFromDto | src/presentation/src/api/event/dto.rs:16-22 | the status parse, its error wrapped in `Parse` |
| ApiEvent.NewEventFromDto | src/presentation/src/api/event/dto.rs:37-50 | Ok iff organizer id and cost are non-negative, keeping all fields; otherwise `LsThanZero` |
| ApiEvent.NewEventFromDtoOnto | src/presentation/src/api/event/dto.rs:37-50 | every new event whose numbers fit the signed widths comes back from the request carrying them |
| ApiEvent.EventDtoFrom | src/presentation/src/api/event/dto.rs:71-86 | ids and cost cast `as` signed and back losslessly; the status label parses back |
| ApiEvent.EventDtoLargeCostNegative | src/presentation/src/api/event/dto.rs:79 | a cost of 2^31 or more is sent as a negative number |
| ApiUser.CredentialsFromDto | src/presentation/src/api/user/dto.rs:36-61 | each length error iff its bound fails and the earlier ones hold, in check order; Ok iff all hold |
| ApiUser.LoginLimitCountsBytes | src/presentation/src/api/user/dto.rs:40 | the login bound counts bytes: any login of 3 to 15 two-byte characters, with an ASCII password of 8 to 100 characters, is accepted as sent |
| Text.Utf8LenTwoByte | src/presentation/src/api/user/dto.rs:40 | a text of two-byte characters has twice as many bytes as characters |
| ApiUser.RoleFromDto | src/presentation/src/api/user/dto.rs:21-27 | the role parse, its error wrapped in `Parse` |
| ApiUser.UserDtoFrom | src/presentation/src/api/user/dto.rs:76-86 | the id cast back losslessly; the role label parses back |
| ApiUser.UserDtoLargeIdNegative | src/presentation/src/api/user/dto.rs:76-86 | an id of 2^63 or more is sent as a negative number |

## Left out

- Executing statements, connection pools, transactions and async: the model stops at the statement and its binds, the point where `build_query_as()` or `query_as` hands them to the driver.
- Whitespace inside the raw SQL literals is collapsed to single spaces; line breaks and indentation inside the literals are not kept.
- The per-variant `match` in each `list` loop is folded into `FilterClause`/`SortOf`. The loop itself runs over the resulting `Clause`/`Sort` values, so the text and binds are the same.
- `unwrap` panics (a stored label that does not parse, a violation report without table or column) are modelled as `None`.
- DbErrors.FromSqlx: assumes `downcast::<PgDatabaseError>` succeeds for every database error, as the driver is PostgreSQL.
- The `Display` messages of the `thiserror` error types are not modelled; only the variants and what they carry are.
- `HandlerError::Service` is opaque: the service layer is not part of this model.
- JWT encoding and decoding, Argon2 hashing and the clock are out of scope. The current time and the token lifetimes are parameters of `NewAccess`/`NewRefresh`.
- The HTTP handlers, the services, the DI container and serde's splitting of the query string into tokens are out of scope.
- Parsing a `String` filter value cannot fail (`Infallible`), so `ParseText` never returns an error.
- The older `src/domain/error.rs` has `From<UserError>` (`User(#[from] UserError)`), but no `From<EventError>`, `From<FavoriteError>` or `From<ParseIntError>` impls, although the models rely on them. The model adds the matching `DomainError` variants.
- ApiUtils.OffsetFromDto: a request where both page and page size are negative fails on the page first. Either way the error is the same `LsThanZero`, so the order cannot be observed.
- Code over description: a `list` with no orders has no `ORDER BY`; page 0 is not rejected; the page size is bound twice (`LIMIT $a OFFSET ($b * ($c - 1))`).
