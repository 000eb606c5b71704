# golang-webservices-2 in Dafny

A Dafny model of the parts of the Go exercises repository that this project covers, with
proofs about them:

- **The annotation-driven handler generator** (`handlers_gen/codegen.go`). Its front end parses
  `apivalidator` struct tags (`parseValidators`) and detects the `apigen:api` marker (`isGenApi`).
  It then builds the descriptor model from a declaration list: endpoints grouped by receiver
  (`findFuncDecl`), the set of parameter-struct names (`getParamsStructNames`), and the selected
  parameter structs with their fields (`findStructDecl`, `getStructFields2`).
- **The code the generator emits.** The `codeTmpl` and `validTmpl` templates are modelled as an
  interpreter over the descriptors (module `Emitted`), not as rendered text. It covers:
  - exact-path dispatch;
  - the `X-Auth` gate and the POST gate;
  - decoding with `FillValue`;
  - the rule-by-rule validator, with its pending-required flag and the `default` rewrite of the
    local copy;
  - the response envelope.
- **The week 1 generated handlers, as written** (`week1/api_handlers.go`). These are the two
  `ServeHTTP` dispatchers, the three handlers and the three validators. They come from an earlier
  generator revision: an empty enum value falls back to a fixed alternative, and there is no
  pending-required flag. They are modelled as they are, not forced to agree with the template.
- **The database explorer's row helpers** (`week2/db_explorer.go`):
  - `fieldList`, `fieldList2`, `valuesList`, `findIndex` and `validateValues`;
  - the INSERT placeholder list and the UPDATE SET clause built by the PUT and POST handlers.
- **The gRPC service's ACL check and statistics counters** (`week3/service.go`):
  - `checkAcl`;
  - `StatAgent` with `ResetStat`, `IncByMethod` and `IncByConsumer`;
  - `StatAgents` with `AllocateNew` and the two broadcasts;
  - the counting part of the two interceptors.
- **The reflection-based decoder** `i2s` (`week4/i2s.go`). It fills a typed Go value from an
  untyped JSON tree, over explicit type and value datatypes.

Layout:

| file | module | contents |
|---|---|---|
| `wrappers.dfy` | `Wrappers` | `Option`, `Result` |
| `strings.dfy` | `Strings` | the `strings`/`strconv` functions the code calls |
| `json.dfy` | `Json` | the value tree `encoding/json` decodes into `interface{}` |
| `codegen.dfy` | `Codegen` | generator front end over a declaration model |
| `runtime.dfy` | `Runtime` | requests, responses, `FillValue`, envelope, enum scan |
| `emitted.dfy` | `Emitted` | interpreter of `codeTmpl`/`validTmpl` |
| `api_handlers.dfy` | `ApiHandlers` | week 1 handlers and validators as written |
| `db_explorer.dfy` | `DbExplorer` | week 2 row helpers and statement text |
| `service.dfy` | `Service` | week 3 ACL check, counters, subscriber classes |
| `i2s.dfy` | `I2s` | week 4 decoder and its round trip with an encoder |

Where the code loops and updates variables, the model does too: a `method` with loop invariants
is proved equal to a specification function. The properties are then proved about that function.
Examples are the tag parser, the grouping loops, the validator, `fieldList`, `checkAcl` and
`fillStructFromMap`. The statistics subscribers are classes whose methods update their fields in
place.

The template's own validator behaves differently from a natural reading of its rules, and the
model keeps the code's behaviour:

- The branch that returns the pending `required` error runs after every rule that is not
  `default`, including `required` itself. So `required` on an empty field fails at once, and a
  later `default` cannot rescue it.
- The method gate always compares the request with POST, whatever verb the configuration
  names.
- The validator works on a copy of the parameters. A value written by `default` never reaches
  the business method.

## Model

| member | source | states |
|---|---|---|
| Codegen.ParseValidators | handlers_gen/codegen.go:419-437 | the empty tag gives no rules and no custom name; otherwise one rule per comma-separated token of the quoted text, in order, and the custom name is that of the last `paramname` rule |
| Codegen.LastParamNameIsLast | handlers_gen/codegen.go:431-434 | the custom name is "" when no rule is `paramname`, else the value of the last `paramname` rule (earlier ones are overridden, all stay in the list) |
| Codegen.RuleOfToken | handlers_gen/codegen.go:429-431 | a token's name is the text before the first `=`, its value the text up to the second `=`, or "" when there is no `=` |
| Codegen.TagBodyOf | handlers_gen/codegen.go:425-427 | for a tag literal `` `key:"body"` `` the trimmed text after the first quote is exactly `body` |
| Codegen.TagRoundTrip | handlers_gen/codegen.go:425-431 | parsing the tag literal formatted from a rule list gives back that rule list (the tag grammar is lossless for plain names and values) |
| Codegen.FirstMarkedLine | handlers_gen/codegen.go:443-448 | the index of the first doc line containing `apigen:api`, none exactly when no line contains it |
| Codegen.IsGenApi | handlers_gen/codegen.go:439-449 | (false, "") without a doc comment; true exactly when some doc line contains the marker, together with the first such line |
| Codegen.GetParamType | handlers_gen/codegen.go:477-479 | the parameter's type is the identifier named by the result |
| Codegen.FindFuncDecl | handlers_gen/codegen.go:351-394 | fails with "Wrong json in comments" exactly when some marked method's JSON does not parse; otherwise maps exactly the receivers of the marked methods, each to its endpoints in declaration order |
| Codegen.ForReceiverMembers | handlers_gen/codegen.go:367-371 | a receiver's list holds exactly the endpoints that have that receiver |
| Codegen.EndpointsErrSticks | handlers_gen/codegen.go:451-459 | once a marked method's JSON fails to parse, the scan of every longer declaration list fails too (the generator exits) |
| Codegen.GetParamsStructNames | handlers_gen/codegen.go:322-330 | the name set is exactly the `InParam` of every endpoint of every receiver |
| Codegen.GetStructFields2 | handlers_gen/codegen.go:396-417 | one descriptor per struct field, in order, with the field's name, its parsed rules and custom name; an untagged field has no rules and no custom name |
| Codegen.FindStructDecl | handlers_gen/codegen.go:332-349 | the result equals the fold that records each selected type declaration under its name |
| Codegen.StructDeclsKeys | handlers_gen/codegen.go:334-345 | the keys are exactly the names of the type declarations whose name is in the set, each entry named by its key |
| Codegen.StructDeclsLastWins | handlers_gen/codegen.go:334-345 | the entry under a name holds the fields of the last declaration of that name |
| Codegen.ResolveFirstDeclaration | handlers_gen/codegen.go:378-379 | a type declared as the first spec of a declaration, and nowhere earlier, is what the parameter's identifier resolves to |
| Codegen.ValidateSeesHandlerFields | handlers_gen/codegen.go:332-395 | when the params struct is declared once, as the first spec of its declaration, the fields the generated Validate checks (findStructDecl) are exactly the fields the handler decodes (getStructFields) |
| Runtime.FillValue | handlers_gen/codegen.go:177-191 | reads the form value under the lower-cased key; a non-int field gets the text; an int field decodes exactly when the text is a decimal integer, else 400 "`<key>` must be `<type>`" |
| Runtime.FillValueCaseInsensitive | handlers_gen/codegen.go:178-179 | a field name and its lower-cased form read the same value |
| Runtime.FillValueReadsInt | handlers_gen/codegen.go:180-188 | an integer written in decimal under the lower-cased key is read back exactly |
| Runtime.BizResponse | handlers_gen/codegen.go:150-171 | an answer gives 200 with an empty error and the payload; a failure gives its message and no payload, with the `ApiError` value's own status, or 500 for any other error |
| Runtime.FindValue | handlers_gen/codegen.go:261-269 | the enum scan finds the value exactly when it is one of the alternatives |
| Emitted.Decode | handlers_gen/codegen.go:107-133 | fields are decoded in order; success exactly when every field decodes, each value being its field's |
| Emitted.DecodeFirstError | handlers_gen/codegen.go:107-133 | a failed decoding answers with the error of the first field that fails, every earlier field having decoded |
| Emitted.DecodeWellTyped | handlers_gen/codegen.go:134-138 | when every field is an int or a string, each decoded value has exactly its field's type, so every `val.(T)` assertion building the params struct succeeds |
| Emitted.ApplyRule | handlers_gen/codegen.go:205-285 | `required` fails exactly on the zero value; `min`/`max` fail exactly when a string field's length, or another field's value, is below/above the bound; `enum` fails exactly when the value is not one of the alternatives its literal lists; every failure is a 400; a passing rule other than `default` leaves the params alone; `default` overwrites the field with its literal; an unknown rule name passes |
| Emitted.Validate | handlers_gen/codegen.go:197-291 | the generated validator, with its pending-required flag, returns exactly the rule interpreter's verdict; every error it returns has status 400 |
| Emitted.NoRulesNoError | handlers_gen/codegen.go:197-291 | fields that carry no rules, after the last field that does, neither fail validation nor change the params |
| Emitted.RequiredNotRescued | handlers_gen/codegen.go:205-215 | `required` on a zero value returns "`<name>` must me not empty" at once, so no later rule, `default` included, rescues the field |
| Emitted.DefaultBeforeRequired | handlers_gen/codegen.go:278-285 | a `default` before `required` fills an empty field and the `required` then passes |
| Emitted.MinOnStringAndInt | handlers_gen/codegen.go:217-236 | `min=N` on a string field fails with "len must be >= N" exactly when the length is below N, and on an int field with "must be >= N" exactly when the value is below N; otherwise it passes |
| Emitted.MaxOnStringAndInt | handlers_gen/codegen.go:238-257 | `max=N` on a string field fails with "len must be <= N" exactly when the length exceeds N, and on an int field with "must be <= N" exactly when the value exceeds N; otherwise it passes |
| Emitted.EnumAcceptsExactlyAlternatives | handlers_gen/codegen.go:259-275 | an `enum` rule passes exactly the values among its alternatives and refuses any other with "must be one of [a, b, ...]" |
| Emitted.EnumHasNoEmptyFallback | handlers_gen/codegen.go:259-275 | the template's enum has no empty-value fallback: an empty value fails when every alternative is non-empty |
| Emitted.Route | handlers_gen/codegen.go:54-59 | the first endpoint whose URL equals the path, none exactly when no URL equals it |
| Emitted.UnknownPathIsNotFound | handlers_gen/codegen.go:60-67 | a path no endpoint has gets 404 "unknown method" |
| Emitted.AuthGateFirst | handlers_gen/codegen.go:73-94 | an authenticated endpoint without the right token answers 403 "unauthorized", whatever the verb or form |
| Emitted.MethodGateIsPostOnly | handlers_gen/codegen.go:95-105 | with a configured method, any verb but POST answers 406 "bad method", even the configured one |
| Emitted.BusinessNeedsValidInput | handlers_gen/codegen.go:107-171 | past the gates, a decode error is answered with that error and a validation error with its 400 status and message, both without calling the business method; otherwise the answer is the business call's envelope |
| Emitted.DefaultNotSeenByBusiness | handlers_gen/codegen.go:134-151 | with `default` then `required` on an empty string field, `required` passes on the value `default` wrote into the validator's copy, and the business method still receives the decoded empty value |
| ApiHandlers.ValidateProfileParams | week1/api_handlers.go:458-470 | fails with "login must me not empty" exactly when the login is empty |
| ApiHandlers.ValidateCreateParams | week1/api_handlers.go:336-395 | login, status and age are checked in that order; passes exactly when the login is non-empty with length at least 10, the status is an alternative or empty, and 0 <= age <= 128 |
| ApiHandlers.ValidateOtherCreateParams | week1/api_handlers.go:397-456 | username, class and level in that order; passes exactly when the username has length at least 3, the class is an alternative or empty, and 1 <= level <= 50 |
| ApiHandlers.HandlerProfile | week1/api_handlers.go:27-77 | the early-return handler equals its outcome: decode, validate, business call, envelope, with no gates |
| ApiHandlers.HandlerCreate | week1/api_handlers.go:78-191 | the early-return handler equals its outcome: auth gate, POST gate, four decodes in order, validation, business call, envelope |
| ApiHandlers.HandlerOtherCreate | week1/api_handlers.go:206-319 | the early-return handler equals its outcome: auth gate, POST gate, four decodes in order, validation, business call, envelope |
| ApiHandlers.MyApiRoutes | week1/api_handlers.go:11-26 | an unknown path gets 404; `/user/create` without the token gets 403; with it but not POST, 406 |
| ApiHandlers.ProfileHasNoGates | week1/api_handlers.go:27-77 | `/user/profile` with an empty login answers 400 "login must me not empty", otherwise the business answer, whatever verb or header |
| ApiHandlers.OtherApiRoutes | week1/api_handlers.go:192-237 | the second receiver knows only `/user/create`, so `/user/profile` gets 404; `/user/create` without the token gets 403; with it but not POST, 406 |
| ApiHandlers.CreateDecoding | week1/api_handlers.go:111-156 | a non-integer age answers 400 "age must be int"; otherwise the params hold the four form values, the name read from full_name |
| ApiHandlers.OtherCreateDecoding | week1/api_handlers.go:239-278 | a non-integer level answers 400 "level must be int"; otherwise the params hold the four form values, read from username, account_name, class and level |
| DbExplorer.Filter | week2/db_explorer.go:203-230 | the kept elements are exactly those of the list that pass the test |
| DbExplorer.FilterSubsequence | week2/db_explorer.go:203-218 | the selected columns keep table order |
| DbExplorer.Filled | week2/db_explorer.go:210-215 | the caller's map after the loop gains "" for each absent non-nullable column and is otherwise unchanged |
| DbExplorer.FieldList | week2/db_explorer.go:203-218 | the columns are the table's columns that are present and not the key, or absent and not nullable, in table order; the caller's map comes back with "" for each absent non-nullable column |
| DbExplorer.FieldList2 | week2/db_explorer.go:220-230 | exactly the present non-key columns, in table order; the map is not touched |
| DbExplorer.UpdateColumnsWithinInsertColumns | week2/db_explorer.go:203-230 | an UPDATE writes an order-preserving subset of the columns an INSERT of the same body writes |
| DbExplorer.ValuesList | week2/db_explorer.go:232-238 | one value per column, the map's value (nil when absent) |
| DbExplorer.FirstIndex | week2/db_explorer.go:343-350 | the first position holding the name, or 0 when there is none |
| DbExplorer.FindIndex | week2/db_explorer.go:343-350 | the scan returns that first position, or 0 |
| DbExplorer.ValidateValues | week2/db_explorer.go:327-341 | no error exactly when no column is refused; else the first refused column, reported as "field X have invalid type" with X the name at findIndex's position |
| DbExplorer.IntColumnTakesAnyValue | week2/db_explorer.go:330-336 | an int column refuses only nil, and only when it is not nullable |
| DbExplorer.PlaceholdersAreJoinedMarks | week2/db_explorer.go:189-190 | the placeholder text is exactly n question marks joined by commas |
| DbExplorer.PlaceholderCount | week2/db_explorer.go:189-190 | the placeholder text holds n question marks |
| DbExplorer.InsertSqlCount | week2/db_explorer.go:189-192 | the INSERT text has one placeholder per column |
| DbExplorer.UpdateSqlCount | week2/db_explorer.go:299-303 | the UPDATE text has the SET clause's placeholders plus one for the key |
| DbExplorer.SetAssignments | week2/db_explorer.go:299-302 | the loop builds exactly the SET clause entries: one "column=?" per written column, in order |
| DbExplorer.UpdateColumns | week2/db_explorer.go:282 | every column an UPDATE writes is present in the body and is a table column |
| DbExplorer.PrepareInsert | week2/db_explorer.go:184-193 | the INSERT's text is `INSERT INTO t (c1,...,cn) VALUES (?,...,?)` over its columns, which are fieldList's; its arguments are their values in the updated map, one per placeholder |
| DbExplorer.PrepareUpdate | week2/db_explorer.go:276-305 | a body naming the key is refused as "field PK have invalid type"; otherwise success exactly when no value is refused; the statement's text is `UPDATE t SET c1=?,...,cn=? WHERE pk=?` over fieldList2's columns, it takes the id as its last argument, and has one placeholder per argument |
| DbExplorer.UpdateStatement | week2/db_explorer.go:298-303 | the text is the UPDATE over the SET clause of the given columns and the key; the record id is appended as the last argument; there is one placeholder per argument when no name holds a question mark |
| Service.AclVerdict | week3/service.go:32-52 | "There are not ACL field" without a consumer; "Unknown consumer" for a consumer not in the ACL; otherwise admitted exactly when one of its patterns matches, else "Unauthenticated"; every error has code Unauthenticated |
| Service.FirstConsumerDecides | week3/service.go:36-37 | only the first consumer value is consulted |
| Service.Microservice.CheckAcl | week3/service.go:32-52 | the pattern loop with its `allow` flag and `break` returns exactly that verdict |
| Service.Succ | week3/service.go:249 | a uint64 increment wraps modulo 2^64 |
| Service.Bump | week3/service.go:244-252 | counting a key sets a new key to 1, adds one (mod 2^64) to a known key, and leaves the other keys unchanged |
| Service.TallyCounts | week3/service.go:244-252 | counters built by repeated counting hold, for each key seen, how often it was seen, mod 2^64, and no other keys |
| Service.NewStat | week3/service.go:276-282 | both counter maps are empty |
| Service.StatAgent.constructor | week3/service.go:284-289 | a new subscriber has empty counters |
| Service.StatAgent.ResetStat | week3/service.go:238-242 | both counter maps become empty |
| Service.StatAgent.IncByMethod | week3/service.go:244-252 | the method counters are bumped for the method; the consumer counters do not change |
| Service.StatAgent.IncByConsumer | week3/service.go:254-262 | the consumer counters are bumped for the consumer; the method counters do not change |
| Service.StatAgents.constructor | week3/service.go:291-296 | an empty subscriber list |
| Service.StatAgents.AllocateNew | week3/service.go:199-205 | exactly one fresh subscriber with empty counters is appended; earlier subscribers keep their counters |
| Service.StatAgents.BroadcastIncByMethod | week3/service.go:207-213 | every subscriber counts the method exactly once |
| Service.StatAgents.BroadcastIncByConsumer | week3/service.go:215-221 | every subscriber counts the consumer exactly once |
| Service.Microservice.constructor | week3/service.go:27-30 | the service holds the parsed ACL and an empty subscriber list |
| Service.Microservice.Admit | week3/service.go:154-160 | the interceptor's verdict is checkAcl's; the call is counted by method in every subscriber, and by its first consumer when there is one, whether or not it is admitted |
| Json.Lookup | week4/i2s.go:32 | a missing map key reads as nil |
| I2s.Zero | week4/i2s.go:45 | a freshly allocated value has its type |
| I2s.FillStruct | week4/i2s.go:25-54 | the result keeps the struct's type; data that is not a map leaves the struct unchanged; a field with a missing or nil entry keeps its value |
| I2s.FillField | week4/i2s.go:32-49 | a string, number or bool sets the field to it; an empty list leaves the field alone; a non-empty list appends one decoded struct per element after the field's existing items |
| I2s.DecodeList | week4/i2s.go:43-48 | one freshly decoded struct per list element, each of the element type |
| I2s.FillStructFromMap | week4/i2s.go:25-54 | the field-by-field loop equals the functional fill |
| I2s.FillStructs | week4/i2s.go:44-48 | the element loop decodes each element into a fresh struct, in list order |
| I2s.FillStructFromSlice | week4/i2s.go:56-64 | the slice becomes its old items followed by the decoded elements, in order |
| I2s.Decode | week4/i2s.go:9-23 | "out must be struct" exactly when the target is neither a struct nor a slice, leaving it unchanged; otherwise no error and the filled value; an empty list fills a slice of any element type |
| I2s.RoundTrip | week4/i2s.go:25-54 | decoding the JSON tree of a typed value into a zero value gives the value back, and that tree never makes the decoder panic |
| I2s.DecodeEncoded | week4/i2s.go:9-23 | for a struct target, decoding an encoded value into a zero value gives that value |

## Left out

- HTTP output is not modelled. `ResponseWriter` headers, writes and the `json.Marshal` of each envelope are reduced to a response value: status, error text and an optional payload.
- `r.FormValue` is reduced to a map from a key to its first value.
- The `text/template` rendering, `genOutput`'s file writing and `main`'s argument checks are not modelled. The emitted code's behaviour is modelled by interpreting the descriptors instead.
- The generator's Go parsing (`go/parser`, `go/ast`) is replaced by a declaration datatype. A type identifier resolves to the first type declaration of that name in the file.
- The JSON configuration after the marker is decoded by a parameter `parseJson` standing for `getJsonApi`'s `json.Unmarshal`. The model only records that a failure ends the generator with "Wrong json in comments".
- The panicking type assertions and indexing are stated as preconditions and not modelled as panics. These are the assertions in `findFuncDecl` and `getStructFields`, a tag without a quote, `h[0]` on an empty `X-Auth` list, and the `i2s` field sets of mismatched types.
- Reflection is replaced by explicit field records and value datatypes. This covers the validators' `FieldByName`, `reflect.Zero`, `validateValues`' kinds and `i2s`.
- Emitted.Handle: a params field whose type is neither int nor string makes the `val.(T)` assertion that builds the params struct (handlers_gen/codegen.go:134-138) panic on every request that decodes, because `FillValue` yields a string for it. An `enum` rule on a non-string field panics at its `.(string)` assertion (handlers_gen/codegen.go:265). Handle and Serve require `PanicFreeFields` instead of modelling these panics.
- Emitted.ApplyRule: a rule list whose rendering would not compile is interpreted, not rejected. A `default` on an int field assigns a string literal. Two `enum` rules in one struct redeclare `enumVal`. A struct whose rules never read `e` or `isReqErr` leaves a variable unused, for example one with no rules, or with only `default` rules.
- Emitted.Bound: a `min`/`max` value is pasted into the Go source as an integer literal. Go reads a leading `0` as octal, so `010` bounds at 8 while the model reads 10. A hexadecimal or underscored literal reads as 0 in the model. A value that is no literal at all does not compile.
- Emitted.Handle validates with the endpoint's own fields, which the handler decodes. The generated `Validate` function takes its fields from `findStructDecl` instead, which only looks at the first spec of each declaration. A params struct declared as a later spec of a grouped `type ( ... )` therefore gets no `Validate` function, and the generated file does not compile. Codegen.ValidateSeesHandlerFields shows that the two field lists agree when the struct is declared as the first spec of its own declaration.
- Codegen.ScannableFunc requires every params field to carry a tag. For an untagged field, `getStructFields` dereferences a nil tag (handlers_gen/codegen.go:383) and panics.
- Codegen.ScannableFunc requires the marker line to hold a `{`. Without one, `getJsonApi` slices the comment from index -1 (handlers_gen/codegen.go:452) and panics.
- I2s.Decode requires list data for a slice target. Other data makes `fillStructFromSlice`'s `data.([]interface{})` (week4/i2s.go:57) panic.
- Strings.ToLower folds only the ASCII letters A to Z, while Go's `strings.ToLower` folds every Unicode upper-case letter. Field names and form keys outside ASCII are lower-cased differently.
- Length is counted in characters, not bytes; the model has no UTF-8 encoding.
- `strconv.Atoi` overflow is not modelled; every decimal integer parses.
- `fmt`'s `%d` is modelled only for the canonical decimal spelling.
- The week 1 parameter struct declarations are not part of this model. The three params datatypes stand for them, and no lemma relates the week 1 validators to the template's output for their tags.
- The database is not modelled: connection, `FillDBMeta`, `TableRouter`, the `Handle*Request` SQL execution, `CreateRecord` and `CreateBlankData`. The statements are built as values and not executed.
- DbExplorer.FieldList and DbExplorer.PrepareUpdate require distinct column names (and one kind per column for the update). Metadata loaded with SHOW FULL COLUMNS has that shape.
- DbExplorer.ValidateValues requires a non-empty table when there are fields to check, and a kind for every column. `findIndex`'s 0 must be a valid position.
- JSON numbers are integers: the `float64` decoding and the `int64(v)` truncation in `i2s` are not modelled.
- Regular-expression matching in `checkAcl` is a parameter `matches`.
- `parseAcl`'s `json.Unmarshal` is replaced by the ACL map given to the constructor.
- Several parts of the gRPC service are not modelled:
  - server setup and the logging subscribers with their event channel;
  - the `Logging` and `Statistics` streaming loops, tickers, `time.Now` timestamps, `GetStat` and `StopAll`;
  - mutexes: the model is sequential.
- Service.StatAgent: `Stat` is a value, not a shared pointer. The aliasing between `GetStat`'s returned pointer and later updates is not captured.
- The debug `fmt.Println` in `fillStructFromSlice` is not modelled.
- `i2s` targets are modelled through their value, not a pointer. Pointer-typed struct fields are not modelled.
- `i2s` updates the value behind `out` in place through reflection; the model returns the new value instead.
