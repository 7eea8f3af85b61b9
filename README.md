# User service statement builders and country choice, in Dafny

This project models the pure core of a small Go user-management service. The
service keeps people (name, surname, patronymic, age, gender, country) in a
Postgres table, and it enriches new users from third-party prediction APIs.
Three pieces of its logic are modelled and proved:

- `SelectQueryBuilder` (`internal/gateway/user.go`) builds the parameterised
  listing statement. Its text is `SELECT * FROM <table> WHERE 1=1`, then one
  filter per non-empty filter field, then `LIMIT`/`OFFSET` placeholders. It
  also returns the arguments bound to the `$n` placeholders.
- `UpdateQueryBuilder` (same file) builds `UPDATE <table> SET ...` with one
  assignment per non-empty field, comma separated, followed by
  `WHERE id = $n`. It returns the bound arguments too.
- `countryWithMaxProbability` (`internal/service/user.go`) reduces the
  country-prediction answer to one country.

Modules:

- `SqlText` (`sql_text.dfy`) covers the text facts the builders rely on. It
  has `Decimal`, the `%d` rendering of a placeholder number, with its
  round-trip. It has `Placeholders`, a scanner that reads the `$n` numbers
  back out of a statement's text. It also has a character counter.
- `Gateway` (`gateway.dfy`) covers the two builders. Each builder is an
  imperative method that grows `query` and `args` block by block. Each is
  proved equal to a closed-form specification, `SelectQuery` or
  `UpdateQuery`. The properties are lemmas about those specifications:
  - argument count and order;
  - placeholder numbering;
  - comma count;
  - the text depends only on which fields are present;
  - exact texts for small inputs.
- `Service` (`service.dfy`) covers the reducer as written: a loop method
  proved against `ScanIndex`. It also holds the corrected reduction (see
  Findings).

The model follows the code exactly, including where a reader might expect
otherwise:

- A field is "present" when it differs from Go's zero value. So an age of 0
  can never be filtered on or written.
- The age, gender and country filter fragments have no leading space. An
  age-only listing therefore reads `... WHERE 1=1AND age=$1  LIMIT $2 OFFSET $3`.
- A user with no field present still yields an update statement with an
  empty SET list: `UPDATE <table> SET  WHERE id = $1`.
- The reducer compares every entry with the first entry's probability. It
  does not compare with a running maximum.

The name of the users table is a package constant that is not part of this
model. Every builder takes it as a parameter. Probabilities are `float64` in
the source and `real` here.

## Model

| member | source | states |
|---|---|---|
| Gateway.SelectQueryBuilder | internal/gateway/user.go:41-85 | The statement built is `SelectQuery`. Its text is the `WHERE 1=1` base, then a filter for each present field in the order name, surname, patronymic, age, gender, country, numbered from $1, then `LIMIT`/`OFFSET` placeholders. Its arguments are the present values, then limit and offset. |
| Gateway.SelectQueryShape | internal/gateway/user.go:47-81 | For k present filter fields there are k+2 arguments. The first k are the present fields' values. Argument k is the limit and argument k+1 is the offset. The text ends with ` LIMIT $k+1 OFFSET $k+2`. |
| Gateway.SelectColumnsCount | internal/gateway/user.go:47-78 | Exactly one filter is emitted per present field. |
| Gateway.SelectColumnsOrdered | internal/gateway/user.go:47-78 | A column is filtered on if and only if its field is present. An age of 0 or an empty string is never filtered on. Filters appear in the order name, surname, patronymic, age, gender, country. |
| Gateway.SelectPlaceholdersNumbered | internal/gateway/user.go:45-80 | Read left to right, the placeholders of the text are exactly $1 .. $n for the n arguments, so each placeholder is bound to the argument at its position. |
| Gateway.SelectTextIgnoresValues | internal/gateway/user.go:47-81 | Two filters with the same fields present give the same text, whatever the values, limit and offset. Values reach only the bound arguments. |
| Gateway.SelectWithoutFilters | internal/gateway/user.go:43-81 | An all-absent filter gives `SELECT * FROM t WHERE 1=1 LIMIT $1 OFFSET $2` with arguments [limit, offset]. |
| Gateway.SelectAgeOnly | internal/gateway/user.go:63-81 | An age-only filter gives `SELECT * FROM t WHERE 1=1AND age=$1  LIMIT $2 OFFSET $3` with arguments [age, limit, offset]. |
| Gateway.UpdateQueryBuilder | internal/gateway/user.go:165-220 | The statement built is `UpdateQuery`. Its text is the SET clause, then a comma-separated assignment for each present field in the order name, surname, patronymic, country, gender, age, numbered from $1, then `WHERE id = $k+1`. Its arguments are the present values, then the id. |
| Gateway.UpdateQueryShape | internal/gateway/user.go:167-217 | For k present fields there are k+1 arguments. The first k are the present fields' values and the last is the user's id. The text starts with `UPDATE t SET ` and ends with ` WHERE id = $k+1`. |
| Gateway.UpdateColumnsCount | internal/gateway/user.go:170-214 | Exactly one assignment is emitted per present field. |
| Gateway.UpdateColumnsOrdered | internal/gateway/user.go:170-214 | A column is assigned if and only if its field is present. Assignments appear in the order name, surname, patronymic, country, gender, age. |
| Gateway.UpdatePlaceholdersNumbered | internal/gateway/user.go:169-216 | The placeholders of the text are exactly $1 .. $n for the n arguments. The id is bound to the last one. |
| Gateway.FragmentsCommas | internal/gateway/user.go:176-211 | k assignments carry k-1 commas, and none when k is 0. |
| Gateway.UpdateCommas | internal/gateway/user.go:167-216 | The whole update text holds k-1 commas for k present fields, and none for none. |
| Gateway.UpdateNoLeadingComma | internal/gateway/user.go:167-216 | The character right after `SET ` is a space, never a comma. |
| Gateway.UpdateTextIgnoresValues | internal/gateway/user.go:170-216 | Two users with the same fields present give the same text, whatever their values and ids. |
| Gateway.UpdateWithoutFields | internal/gateway/user.go:167-217 | A user with no field present is not rejected. It gives `UPDATE t SET  WHERE id = $1` with arguments [id]. |
| Gateway.UpdateNameAndAge | internal/gateway/user.go:170-217 | Name and age give `UPDATE t SET  name = $1, age = $2 WHERE id = $3` with arguments [name, age, id]. Age comes last, after a comma. |
| Gateway.PresentColumnsMembers | internal/gateway/user.go:47-78 | A column is emitted if and only if it is tested and its field differs from the zero value. |
| Gateway.PresentColumnsOrdered | internal/gateway/user.go:47-78 | Emitted columns keep the order in which the builder tests them. |
| Gateway.PartialClosed | internal/gateway/user.go:47-78 | The block-by-block accumulation (`query +=`, `args = append`, `i++`) yields the fragments and values of exactly the present columns. The j-th fragment is numbered $j. |
| Gateway.FragmentsPlaceholders | internal/gateway/user.go:48-75 | The `$%d` placeholders of the emitted fragments read back as 1, 2, ..., k. |
| SqlText.DecimalRoundTrip | internal/gateway/user.go:48 | Reading back the `%d` rendering of a placeholder number gives the number. |
| Service.CountryWithMaxProbability | internal/service/user.go:54-70 | An empty list gives "". Otherwise the result is the country of the last entry whose probability is strictly above the first entry's, or the first entry's country when there is none. |
| Service.ScanIndex | internal/service/user.go:60-67 | After the loop has seen n entries, the index is 0 or an entry above the first entry's probability, and no later seen entry is above it. |
| Service.ScanIndexUnique | internal/service/user.go:60-67 | Those two properties determine the index. They hold of no other index. |
| Service.ChosenAtLeastFirst | internal/service/user.go:60-69 | The chosen country's probability is at least the first entry's. |
| Service.ChosenOfNone | internal/service/user.go:56-58 | An empty list gives "". |
| Service.ChosenOfOne | internal/service/user.go:60-69 | A single entry is chosen whatever its probability. |
| Service.ChosenIsNotMostProbable | internal/service/user.go:60-67 | Probabilities 0.1, 0.9, 0.5 give the third country, although the second is more probable. |
| Service.ChosenIsMostProbableUpToTwo | internal/service/user.go:54-70 | With at most two entries the source's choice is the most probable country. |
| Service.MaxIndex | internal/service/user.go:54-70 | The corrected scan's index is the first entry with the largest probability. |
| Service.BestCountry | internal/service/user.go:54-70 | The corrected reduction returns "" for none, otherwise a country no entry is more probable than (the first such). |
| Service.MostProbableOfExample | internal/service/user.go:54-70 | On 0.1, 0.9, 0.5 the corrected reduction returns the second country. |

## Left out

- `GetUsers`, `CreateUser`, `DeleteUser` and `UpdateUser` of the gateway (internal/gateway/user.go:22-38, 87-116, 118-140, 142-162) are left out. They are database I/O through transactions. Note that `DeleteUser` and `UpdateUser` return on an `Exec` error without rolling back (user.go:132-134, 154-156).
- The service's `CreateUser` (internal/service/user.go:25-52) is left out. It chains three HTTP prediction calls and the repository, and is I/O only. Its use of the reducer is modelled through `CountryWithMaxProbability`.
- The service's `GetUsers`, `DeleteUser` and `UpdateUser` (internal/service/user.go:20-23, 72-80) are left out. They only panic with "implement me".
- The users table constant, the logger and the model package's declarations are not part of this model. The table name is a parameter, and the records are the datatypes `UserFilter` and `User`.
- `args []interface{}` is modelled as a sequence of `Text`/`Number` values. Go's distinction between a nil and an empty slice is not modelled.
- Probabilities are reals. `float64` rounding, NaN and infinities are not modelled: a NaN never compares greater, which the real order cannot show.
- Integers are unbounded. Limit, offset, age and id are only bound as arguments, never rendered into the text, and placeholder numbers stay at most 8. So Go's `int` width plays no part.
- Gateway.SelectQueryBuilder / Gateway.UpdateQueryBuilder: each source block `if <field> is set { query += ...; i++; args = append(...) }` is the helper method `AddFilter` / `AddAssignment`, called once per field in the source's order. The first UPDATE block has no `if i > 1` comma test in the source. The helper's test is false there, because `i` is 1.
- Gateway.SelectPlaceholdersNumbered: requires that the table name holds no `$`, because a `$` in it would read as a placeholder.
- Gateway.UpdatePlaceholdersNumbered: requires that the table name holds no `$`, because a `$` in it would read as a placeholder.
- Gateway.UpdateCommas: requires that the table name holds no comma.

## Findings

| source | as written | input that shows it | evidently intended | confidence | as-written member | corrected member |
|---|---|---|---|---|---|---|
| internal/service/user.go:60-67 | `maxP` is taken from the first entry and never updated, so the loop keeps the last entry whose probability exceeds the first entry's | countries with probabilities 0.1, 0.9, 0.5: the third country is returned | the most probable country, as the function's name says (the first one on a tie) | not executed; high | Service.ChosenIsNotMostProbable | Service.BestCountry |
