# express-boilerplate core, modelled in Dafny

This project models the logic of an Express/TypeScript server boilerplate. The logic covered is:

- reading configuration from command-line flags and the process environment;
- the request-body validators and the middleware that turns their messages into a 400 answer;
- small pure helpers: file-type categories, size text, pagination, MongoDB `$lookup` builders;
- the per-name registries: brokers, notifiers, queues, storages and JWT signers;
- the notifier service's e-mail dispatch and its job protocol;
- the account and reset-password stores, over an in-memory users table and a cache map.

Code that changes state in the source is modelled as a Dafny `class` whose `modifies`d fields the methods update. Examples are the JWT registry, the queue and storage registries, the event emitter's listener table, the application's service list and the two stores. Loops stay loops, each proved against a specification function. The pure helpers are functions, and the properties sit in lemmas next to them.

Things the program cannot see are parameters. These are bcrypt `hash`/`compare`, the uuid, the clock (`now`, in milliseconds), the JWT signer and verifier, whether a mail transport throws, the webhook's HTTP fetch and the JSON parser. Effects on the outside world (sending mail, adding or removing a job, opening or closing a store, creating routes) are appended to a `log` of effects. Each method's `ensures` states that log exactly.

Modules, one per source file: `Common` holds the shared Option, Result and JavaScript string operations. The others are `Parser`, `Utils`, `Env`, `Validator`, `AccountModel`, `ResetPasswordModel`, `ExampleModel`, `ValidatorMiddleware`, `Filetype`, `Paginator`, `App`, `ConnectionMongoose`, `DbMongoose`, `EventBroker`, `Broker`, `Notifier`, `Queue`, `Storage`, `Jwt`, `NotifierService`, `AccountStore` and `ResetPasswordStore`.

## Model

| member | source | states |
|---|---|---|
| Parser.ParseFlags | src/lib/parser.ts:4-17 | the `forEach` loop builds exactly the dictionary `Flags(argv)` |
| Parser.SplitFlag | src/lib/parser.ts:9-10 | destructuring `arg.split('=')` gives the name after `--` up to the first `=`, and the text between the first and second `=` as the value |
| Parser.FlagsKeys | src/lib/parser.ts:7-12 | the keys of the result are exactly the names of the arguments that start with `--` |
| Parser.FlagsLastWins | src/lib/parser.ts:7-12 | a flag with no later flag of the same name decides that name's value |
| Parser.FlagsIgnoreNonFlag | src/lib/parser.ts:7-8 | an argument not starting with `--` has no effect, wherever it stands |
| Parser.FlagsSnoc | src/lib/parser.ts:7-12 | appending one argument updates the dictionary by that argument alone |
| Parser.FlagsSingle | src/lib/parser.ts:7-12 | a single argument gives its one entry if it is a flag and nothing otherwise |
| Parser.FlagWithoutValue | src/lib/parser.ts:12 | `--env` and `--env=` both map `env` to `./.env` |
| Parser.FlagSecondEquals | src/lib/parser.ts:9-10 | text after a second `=` is dropped: `--a=b=c` gives `a` = `b` |
| Parser.FlagAfterPlainArgument | src/lib/parser.ts:7-12 | `serve --port=1` gives only `port` = `1` |
| Parser.PlainArgumentAlone | src/lib/parser.ts:8 | a lone plain argument gives an empty dictionary |
| Parser.FlagRepeated | src/lib/parser.ts:7-12 | `serve --port=1 --port=2` keeps the last value `2` |
| Parser.SecondPortFlag | src/lib/parser.ts:7-12 | a second `--port` flag overwrites the first |
| Parser.PortFlag | src/lib/parser.ts:9-10 | `--port=<digit>` is a flag named `port` with that digit as value |
| Parser.ToString | src/lib/parser.ts:29-34 | a non-empty value wins; otherwise the default if there is one, else `''` |
| Parser.ToBoolean | src/lib/parser.ts:36-41 | a non-empty value is true iff it is exactly `'true'`; otherwise the default, else false |
| Parser.ToNumber | src/lib/parser.ts:43-48 | a non-empty decimal value gives its number; otherwise the default, else 0 |
| Parser.ToUnion | src/lib/parser.ts:68-73 | the non-empty value, else the default, else `''` |
| Parser.EmptyIsMissing | src/lib/parser.ts:29-73 | in every getter an empty value behaves exactly like a missing one |
| Parser.BooleanIgnoresDefault | src/lib/parser.ts:36-41 | a non-empty value other than `'true'` is false whatever the default; `'TRUE'` and `'1'` are false |
| Parser.NumberRoundTrip | src/lib/parser.ts:43-48 | a natural number written in decimal reads back as itself |
| Utils.ParseFlags | src/lib/utils.ts:4-17 | the duplicate loop builds the same dictionary as the parser module on every input |
| Utils.ToString | src/lib/utils.ts:27-32 | agrees with `Parser.ToString` on every input |
| Utils.ToBoolean | src/lib/utils.ts:34-39 | agrees with `Parser.ToBoolean` on every input |
| Utils.ToNumber | src/lib/utils.ts:41-46 | agrees with `Parser.ToNumber` on every input |
| Common.Lookup | src/lib/env.ts:9 | the entry `process.env[key]` (and `req.Query(key)`, src/lib/paginator.ts:25-34) exists iff the key is set, and it is the stored string |
| Env.StoredValueWins | src/lib/env.ts:8-11 | a non-empty stored value is what `toString(d)` returns, whatever `d` is |
| Env.UnsetGivesDefault | src/lib/env.ts:9-10 | an unset or empty variable gives the default, or `''` when there is none |
| Env.UnsetNumberGivesDefault | src/lib/env.ts:9-10 | an unset variable read with a non-zero default gives that default |
| Env.ApplicationDefaults | src/app/index.ts:55-57 | unset `BASE_URL` and `NODE_ENV` read as `http://localhost:3000` and `dev` |
| Validator.TestFinds | src/lib/validator.ts:11 | a character-class test is true iff a character of the class occurs |
| Validator.PasswordAccepts | src/lib/validator.ts:6-12 | a password is accepted iff it has 8 to 16 characters, an ASCII digit and an upper-case letter |
| Validator.PasswordLengthBounds | src/lib/validator.ts:7-9 | strings shorter than 8 or longer than 16 are refused; lengths 8 and 16 can pass |
| Validator.PasswordTestCases | src/lib/validator.ts:6-12 | `''`, `'abcdefgh'` and `'12345678'` are refused and `'12345Abc'` is accepted |
| Validator.EmailMatchesPattern | src/lib/validator.ts:14-16 | the scan accepts exactly what `/^[^\s@]+@[^\s@]+\.[^\s@]+$/` matches |
| Validator.EmailGivesPattern | src/lib/validator.ts:14-16 | an accepted address splits into a plain local part, `@`, a plain host with an inner dot |
| Validator.PatternGivesEmail | src/lib/validator.ts:14-16 | any such split is accepted |
| Validator.FirstAt | src/lib/validator.ts:15 | an `@` preceded only by plain characters is the first `@` |
| Validator.EmailNeedsDotInHost | src/lib/validator.ts:15 | a host without a dot is refused |
| Validator.SimpleTextIsPlain | src/lib/validator.ts:15 | lower-case letters and dots are characters the pattern's `[^\s@]` admits |
| Validator.EmailTestCase | src/lib/validator.ts:14-16 | `testing@email.com` is accepted |
| Validator.FieldErrorsEmpty | src/lib/validator.ts:36-38 | a field reports no error iff it satisfies its schema |
| Validator.PropertyErrorsEmpty | src/lib/validator.ts:36-38 | the properties report no error iff each is valid, or absent and optional |
| Validator.ErrorsEmptyIffMatches | src/lib/validator.ts:36-38 | the schema errors are empty iff the data matches the schema |
| Validator.ValidateSchema | src/lib/validator.ts:36-38 | one `"<message> of <path>"` per schema error, in error order; empty iff the data matches |
| AccountModel.Register | src/app/module/account/account.model.ts:13-26 | no message iff email, password, and first and last names of at least 2 characters are valid |
| AccountModel.Login | src/app/module/account/account.model.ts:28-39 | no message iff the email and password formats hold |
| AccountModel.UpdateProfile | src/app/module/account/account.model.ts:41-56 | no message iff every present field satisfies its optional schema |
| AccountModel.ChangePassword | src/app/module/account/account.model.ts:58-70 | no message iff email, password and a string token are valid |
| AccountModel.NewPassword | src/app/module/account/account.model.ts:72-83 | no message iff `current` and `new` are both valid passwords |
| AccountModel.ChangeEmail | src/app/module/account/account.model.ts:85-99 | no message iff both addresses are e-mails, the password is valid, and both redirects are strings |
| AccountModel.RegisterMatches | src/app/module/account/account.model.ts:13-26 | the register schema's own reading, field by field |
| AccountModel.UpdateProfileMatches | src/app/module/account/account.model.ts:41-56 | the update-profile schema's own reading, field by field: each field is checked only when present |
| AccountModel.ChangePasswordMatches | src/app/module/account/account.model.ts:58-70 | the change-password schema's own reading, field by field |
| AccountModel.ChangeEmailMatches | src/app/module/account/account.model.ts:85-91 | the change-email schema's own reading, field by field |
| AccountModel.HostWithoutDot | src/lib/validator.ts:14-16 | `<uuid>@mail` is not an e-mail |
| AccountModel.RegisterBodyFields | src/app/module/account/account.model.ts:13-19 | the test body carries the four fields under their JSON names |
| AccountModel.RegisterTestAccepted | src/app/module/account/account.model.ts:13-26 | the registration body of the tests validates |
| AccountModel.RegisterTestsRejected | src/app/module/account/account.model.ts:13-26 | bad e-mail, empty names, and empty, letter-only or digit-only passwords are each refused |
| AccountModel.LoginBodyFields | src/app/module/account/account.model.ts:28-32 | the login test body carries `email` and `password` |
| AccountModel.LoginTestCases | src/app/module/account/account.model.ts:28-39 | the good login validates; bad e-mail and bad passwords are refused |
| AccountModel.UpdateProfileCases | src/app/module/account/account.model.ts:41-56 | `{}` validates and a non-string `phone` is refused |
| AccountModel.RegisterEmptyBodyMessage | src/app/module/account/account.model.ts:13-26 | an empty body's first message is the missing `/email` |
| ResetPasswordModel.ResetPassword | src/app/module/account/reset-password/reset-password.model.ts:8-19 | no message iff `email` is an e-mail and `redirect` is a string |
| ResetPasswordModel.AnyRedirectAccepted | src/app/module/account/reset-password/reset-password.model.ts:10 | any redirect string is accepted, `''` included |
| ResetPasswordModel.RejectedBodies | src/app/module/account/reset-password/reset-password.model.ts:8-19 | a missing or non-string redirect, or a malformed e-mail, gives a message |
| ResetPasswordModel.ExtraFieldsIgnored | src/app/module/account/reset-password/reset-password.model.ts:8-11 | fields other than `email` and `redirect` do not change the verdict |
| ExampleModel.Example | src/app/module/example/example.model.ts:4-21 | no message iff `foo` is a string of at least 2 characters and `bar` a number of at least 1 |
| ExampleModel.ExampleBodyFields | src/app/module/example/example.model.ts:4-13 | the test body carries `foo` and `bar` |
| ExampleModel.ExampleTestCases | src/app/module/example/example.model.ts:4-21 | `{foo:'test', bar:1}` validates; a short `foo` or a `bar` below 1 is refused |
| ExampleModel.BothFieldErrors | src/app/module/example/example.model.ts:4-21 | with both fields wrong, the errors are the `/foo` length, then the `/bar` minimum |
| ExampleModel.BothFieldMessages | src/lib/validator.ts:36-38 | the message texts of those two errors |
| ExampleModel.BothFieldsReported | src/app/module/example/example.model.ts:15-19 | both failures are reported, in that order |
| ValidatorMiddleware.BadRequest | src/app/middleware/typeable.ts:50-52 | status 400 with the given message, or the default message |
| ValidatorMiddleware.Validate | src/app/middleware/validator.ts:5-13 | `next` exactly when the validator of the body gives no message; otherwise 400 with the first message |
| ValidatorMiddleware.EmptyRegisterBody | src/app/middleware/validator.ts:7-12 | an empty registration body is answered 400 with the missing-email message |
| ValidatorMiddleware.NonObjectBody | src/app/middleware/validator.ts:7-12 | a body that is not an object is answered 400 with the expected-object message |
| Filetype.RemoveFirst | src/lib/filetype.ts:2 | `replace('.', '')` removes only the first dot, and nothing when there is none |
| Filetype.Filetype | src/lib/filetype.ts:1-16 | the result is always one of the six categories |
| Filetype.ListsDisjoint | src/lib/filetype.ts:3-7 | the five extension lists are pairwise disjoint |
| Filetype.FiletypeIsTheListHoldingIt | src/lib/filetype.ts:1-16 | the category is the one whose list holds the extension, else `other` |
| Filetype.FiletypeLeadingDot | src/lib/filetype.ts:2 | `.png` and `png` are both images |
| Filetype.FiletypeOnlyFirstDot | src/lib/filetype.ts:2 | `..png` is `other` |
| Filetype.FiletypeCaseSensitive | src/lib/filetype.ts:3 | matching is case-sensitive: `PNG` is `other` |
| Filetype.FiletypeBmpIsOther | src/lib/filetype.ts:3 | `bmp` is `other`, because the list spells it `bpm` |
| Filetype.SizeConstants | src/lib/filetype.ts:18-20 | KB, MB and GB are 1024, 1048576 and 1073741824 |
| Filetype.ParseSize | src/lib/filetype.ts:22-29 | the unit each size range gets as written, with `0 KB` exactly at 1024 and at 1 GB |
| Filetype.ParseSizeBoundaries | src/lib/filetype.ts:22-29 | the written code answers `0 KB` for 1024 and for 1 GB, where the intended one gives `1 KB` and `1 GB` |
| Filetype.ParseSizeIntended | src/lib/filetype.ts:22-29 | the unit is the largest of KB, MB, GB not above the size (KB below 1024) |
| Filetype.ParseSizeAgreesOffBoundaries | src/lib/filetype.ts:22-29 | away from 1024 and 1 GB the written and intended versions agree |
| Paginator.OrderByPieces | src/lib/paginator.ts:35-38 | `column,order` splits into column and order; a lone column has no order |
| Paginator.Paginate | src/lib/paginator.ts:25-46 | a result exists iff page and limit read as integers; page and limit are the `page` and `limit` parameters read as numbers with defaults 1 and 25; offset is (page - 1) × limit; search and orderBy are their parameters with defaults |
| Paginator.PaginateParameterDefaults | src/lib/paginator.ts:26-27 | an absent or empty `page` gives page 1 and an absent or empty `limit` gives limit 25, each whatever the other parameters are; with both absent the offset is 0 |
| Paginator.PaginateDefaults | src/lib/paginator.ts:26-38 | an empty query gives page 1, limit 25, offset 0, search `''` and `created_at desc` |
| Paginator.PaginateNumbers | src/lib/paginator.ts:26-33 | decimal page and limit are used as given, and the offset follows |
| Paginator.FloorDiv | src/lib/paginator.ts:41 | `Math.floor(a / b)` is the integer quotient rounded down |
| Paginator.TotalPage | src/lib/paginator.ts:40-43 | at least 1; for count ≥ limit it is the count divided by the limit, rounded down; only when limit is 0 is there no integer result |
| Paginator.TotalPageRoundsDown | src/lib/paginator.ts:40-43 | 30 rows of 25 give 1 page, which does not hold them; the intended count is 2 |
| Paginator.TotalPageCeil | src/lib/paginator.ts:40-43 | the least number of pages (at least 1) that holds every row |
| Paginator.TotalPageExactPages | src/lib/paginator.ts:40-43 | when the count is an exact number of pages, the written and intended versions agree |
| Paginator.QueryParam | src/lib/paginator.ts:44 | `query(q, d)`: the non-empty parameter, else the default, else `''` |
| App.WithDefaults | src/app/index.ts:61-68 | name `index`, port 3000, empty services, stores and plugins, each overridden by a supplied field |
| App.ChangePort | src/app/index.ts:95-104 | a base URL with at most two `:`-pieces is returned unchanged |
| App.ChangePortPieces | src/app/index.ts:97-100 | otherwise the pieces are the old ones with piece 2 replaced by the port |
| App.ChangePortOf | src/app/index.ts:97-100 | `scheme:host:port` gets the new port and keeps scheme and host |
| App.ChangePortDefaultUrl | src/app/index.ts:95-104 | `http://localhost:3000` with 8080 becomes `http://localhost:8080` |
| App.ChangePortNoPort | src/app/index.ts:97-103 | `http://localhost` is left unchanged |
| App.OpenStores | src/app/index.ts:119 | one open per store, in order |
| App.CloseStores | src/app/index.ts:159 | one close per store, in order |
| App.PluginInstalls | src/app/index.ts:110-116 | one install per plugin, in order |
| App.StartServicesAt | src/app/index.ts:122-129 | each service's build, init and routes sit between those of the services before and after it |
| App.InitBeforeRoutes | src/app/index.ts:122-129 | a service with `init` is built, initialised and routed, consecutively |
| App.NoInitNoCall | src/app/index.ts:122-129 | a service without `init` goes straight from being built to its routes |
| App.StoresAndPluginsFirst | src/app/index.ts:118-129 | all stores open, then all plugins install, before any service is built |
| App.Application.constructor | src/app/index.ts:55-68 | options with defaults, the base URL and environment from the environment map, nothing started |
| App.Application.InstallPlugin | src/app/index.ts:110-116 | installs every plugin in order and records them; services unchanged |
| App.Application.OpenAllStores | src/app/index.ts:119 | opens every configured store, in order; services and plugins unchanged |
| App.Application.StartAllServices | src/app/index.ts:122-129 | for each configured service in order: `init` when it has one, then its routes; the services grow by exactly the configured ones |
| App.Application.Start | src/app/index.ts:118-129 | the log grows by exactly the start sequence; services and plugins grow by the configured ones |
| App.Application.DestroyPlugin | src/app/index.ts:143-147 | closes, in order, the installed plugins that have `close` |
| App.Application.CloseAllServices | src/app/index.ts:152-154 | closes, in order, the started services that have `close` |
| App.Application.CloseAllStores | src/app/index.ts:159 | closes every configured store, in order |
| App.Application.CloseAll | src/app/index.ts:143-160 | closes plugins with `close`, then services with `close`, then the server, then every store |
| App.Application.Shutdown | src/app/index.ts:162-163 | in the `test` environment the shutdown runs at once; otherwise nothing happens yet |
| App.StartThenShutdown | src/app/index.ts:118-163 | start then shutdown in `test` gives exactly the start sequence followed by the shutdown sequence |
| ConnectionMongoose.Projection | src/db/connection/mongoose.ts:60-69 | no selects gives `{}`; otherwise the keys are exactly the selected names, each mapped to 1 |
| ConnectionMongoose.CreateProjection | src/db/connection/mongoose.ts:60-69 | the loop builds exactly that projection |
| ConnectionMongoose.ProjectionOfSameSet | src/db/connection/mongoose.ts:64-66 | selections with the same names, duplicates or order aside, give the same projection |
| ConnectionMongoose.HasMany | src/db/connection/mongoose.ts:71-85 | one `$lookup` from the model's collection, named after it, joining on the optional fields or their defaults, whose inner pipeline is the projection |
| ConnectionMongoose.HasManyWith | src/db/connection/mongoose.ts:87-102 | one `$lookup` joining on the optional fields or their defaults, whose inner pipeline is a first stage followed by the caller's stages |
| ConnectionMongoose.HasOne | src/db/connection/mongoose.ts:104-119 | `$lookup` named by the lower-cased model name and joining on the optional fields or their defaults, then `$unwind` of `$` + that name, keeping empty matches |
| ConnectionMongoose.HasOneWith | src/db/connection/mongoose.ts:121-137 | the same two stages with the same join fields, the inner pipeline extended by the caller's stages |
| ConnectionMongoose.RelationDefaults | src/db/connection/mongoose.ts:71-119 | for any option, in both `hasMany` and `hasOne`, each join field defaults on its own: foreign field `_id`, local field lower-cased name + `Id`; given fields, `''` included, are kept |
| ConnectionMongoose.WithExtendsPlain | src/db/connection/mongoose.ts:71-137 | the `*With` builders equal the plain ones apart from the extra inner stages, and with no extra stages are identical |
| ConnectionMongoose.ProjectFirst | src/db/connection/mongoose.ts:80-130 | `$project` is the first inner stage of every builder |
| DbMongoose.CreateProjection | src/db/mongoose.ts:51-60 | the same projection as the connection module; every selected name maps to 1 |
| DbMongoose.HasMany | src/db/mongoose.ts:62-76 | agrees with the connection module's `hasMany` on every input |
| DbMongoose.HasOne | src/db/mongoose.ts:78-93 | agrees with the connection module's `hasOne` on every input |
| EventBroker.Emission | src/lib/broker/event.ts:12 | an `error` event nobody listens to throws; otherwise one call per listener of the topic, in subscription order, each with the payload |
| EventBroker.Emitter.constructor | src/lib/broker/event.ts:5 | the shared emitter starts with no listeners |
| EventBroker.Emitter.On | src/lib/broker/event.ts:16 | appends the callback to its topic's listeners and changes no other topic |
| EventBroker.Emitter.Emit | src/lib/broker/event.ts:12 | the calls are the emission of the current table |
| EventBroker.EventBroker.constructor | src/lib/broker/event.ts:5-9 | every broker holds the one shared emitter |
| EventBroker.EventBroker.Publish | src/lib/broker/event.ts:11-13 | calls every subscriber of the topic on the shared table |
| EventBroker.EventBroker.Subscribe | src/lib/broker/event.ts:15-17 | adds the callback to the topic, at the end of its list; every other topic is unchanged |
| EventBroker.NoSubscribers | src/lib/broker/event.ts:12 | publishing to a topic other than `error` with no subscribers calls nothing |
| EventBroker.SharedEmitter | src/lib/broker/event.ts:5-17 | a callback subscribed twice through one broker runs twice on a publish through another |
| Broker.PriorityValue | src/lib/broker/index.ts:14-19 | every priority is numbered below 4 |
| Broker.PriorityOf | src/lib/broker/index.ts:14-19 | the enum's reverse mapping exists exactly for 0 to 3 |
| Broker.PriorityNumbering | src/lib/broker/index.ts:14-19 | VERY_HIGH, HIGH, MEDIUM and LOW are 0 to 3; the numbering is one-to-one and inverted by the reverse mapping |
| Broker.Create | src/lib/broker/index.ts:42-47 | `event` and `sns` give their brokers; any other name fails with `Broker <name> is not implemented` |
| Broker.CreateByName | src/lib/broker/index.ts:34-47 | every broker kind is created by its own name and only by it |
| Notifier.Create | src/lib/notifier/index.ts:50-53 | succeeds iff the name is available, with the notifier of that name; otherwise fails with `No implementation of notifier for <name>` |
| Notifier.AvailableNotifiersComplete | src/lib/notifier/index.ts:43-56 | `availableNotifier` is the two distinct names, and each notifier kind is created by its name |
| Queue.MessageQueue.constructor | src/lib/queue/index.ts:44 | a queue records its factory, topic and option |
| Queue.QueueRegistry.constructor | src/lib/queue/index.ts:47 | the registry starts empty |
| Queue.QueueRegistry.Create | src/lib/queue/index.ts:51-57 | a recorded topic returns its queue and changes nothing; a new topic with an unknown factory fails; otherwise a fresh queue is recorded under the topic alone; entries are never removed |
| Queue.SameTopicSameQueue | src/lib/queue/index.ts:51-57 | a second create for a topic returns the first queue and keeps its option; another topic gets another queue |
| Storage.Storage.constructor | src/lib/storage/index.ts:37 | a storage records its name and option |
| Storage.StorageRegistry.constructor | src/lib/storage/index.ts:41 | the registry starts empty |
| Storage.StorageRegistry.Create | src/lib/storage/index.ts:45-55 | a recorded name is returned before any check; an unknown name fails with `Storage <name> is not implemented`; otherwise a fresh storage is recorded under its name |
| Storage.CreateIsIdempotent | src/lib/storage/index.ts:45-55 | a second create returns the same storage and ignores the new option |
| Jwt.SigningKey | src/lib/jwt.ts:28-33 | the option's key wins over `JWT_SIGNING_KEY` |
| Jwt.Expiration | src/lib/jwt.ts:31 | `ms` throws exactly when `JWT_EXPIRATION` is unset or empty; otherwise the variable's text is parsed |
| Jwt.NewFastJwt | src/lib/jwt.ts:28-33 | the expiration is converted before the option is applied, so its failure fails the construction even when the option has a max age; otherwise the instance holds the key and max age |
| Jwt.MaxAge | src/lib/jwt.ts:28-33 | the option's max age wins over the configured expiration |
| Jwt.FastJwt.constructor | src/lib/jwt.ts:28-33 | the signer holds that key and max age |
| Jwt.JwtRegistry.constructor | src/lib/jwt.ts:21-22 | no instances, and the selected key is `default` |
| Jwt.JwtRegistry.Create | src/lib/jwt.ts:75-80 | adds an instance only when the topic has none and never replaces one; when the construction throws, nothing is recorded and the error is returned; the selected key is unchanged |
| Jwt.JwtRegistry.Use | src/lib/jwt.ts:85-88 | sets the selected key and nothing else |
| Jwt.JwtRegistry.Sign | src/lib/jwt.ts:51-56 | signs with the selected instance, then selects `default` again; with no instance it fails and keeps the selection |
| Jwt.JwtRegistry.Verify | src/lib/jwt.ts:65-70 | verifies with the selected instance and reselects `default` when that succeeds; with no instance it fails and keeps the selection |
| Jwt.SignThenVerify | src/lib/jwt.ts:51-70 | with a verifier that inverts the signer, a token signed for a topic verifies back to its payload |
| Jwt.UseLastsOneCall | src/lib/jwt.ts:51-56 | a `use` selection applies to the next sign only; the one after uses `default` again |
| Jwt.CreateNeedsExpiration | src/lib/jwt.ts:28-33 | without `JWT_EXPIRATION`, creating an instance fails even with a key and max age in the option, and a later sign fails too |
| NotifierService.MailOf | src/app/services/notifier.ts:68-71 | the mail goes to `[recipient]` with subject and template; the payload is the data minus those three keys |
| NotifierService.Sends | src/app/services/notifier.ts:61-66 | one send effect per mail, in order |
| NotifierService.SendsCons | src/app/services/notifier.ts:63-65 | one more mail in front adds one more send in front |
| NotifierService.NotificationUnfold | src/app/services/notifier.ts:63-65 | the walk over the notifiers takes one entry at a time, from the front |
| NotifierService.NotificationAllSent | src/app/services/notifier.ts:61-66 | when sending succeeds, one mail per `email` entry is sent, each the mail of the data |
| NotifierService.NotificationWithoutEmail | src/app/services/notifier.ts:62-63 | without data or without an `email` entry nothing is sent |
| NotifierService.NotificationIgnoresOtherNames | src/app/services/notifier.ts:63-64 | a name other than `email` has no effect, wherever it stands |
| NotifierService.NotificationStopsAtFailure | src/app/services/notifier.ts:63-65 | every send but the last succeeded, and a failure is the last send's error |
| NotifierService.Driver | src/app/services/notifier.ts:14 | a non-empty `NOTIFIER_DRIVER`, else `ses` |
| NotifierService.RecoveryUnfold | src/app/services/notifier.ts:33-36 | the failed jobs are retried one by one, from the front |
| NotifierService.RecoverySucceedsIffAll | src/app/services/notifier.ts:33-36 | recovery succeeds iff every failed job notifies successfully |
| NotifierService.RecoveryStopsAtFirstFailure | src/app/services/notifier.ts:33-36 | the first failing job's error ends recovery; the jobs before it are all removed, it keeps only its own sends and is not removed, and no later job is touched |
| NotifierService.RecoveryPrefix | src/app/services/notifier.ts:33-36 | the effects of a failing recovery are those of recovering the jobs before the failing one, then its sends |
| NotifierService.RecoveryAppend | src/app/services/notifier.ts:33-36 | once every job of a first run notifies successfully, recovery goes on with the next jobs exactly as if it started there |
| NotifierService.RecoveryRemovesAll | src/app/services/notifier.ts:33-36 | when every job notifies successfully, every one of them is removed |
| NotifierService.NotifierService.constructor | src/app/services/notifier.ts:14-27 | the service holds its mailer and has done nothing yet |
| NotifierService.NotifierService.Enqueue | src/app/services/notifier.ts:45-53 | adds exactly one job with the payload, its priority and a fixed 1000 ms backoff |
| NotifierService.NotifierService.Notify | src/app/services/notifier.ts:61-66 | the result and the sends are those of the notification walk |
| NotifierService.NotifierService.SendEmail | src/app/services/notifier.ts:68-71 | sends exactly the mail of the data, and fails exactly when that send fails |
| NotifierService.NotifierService.NotifyEach | src/app/services/notifier.ts:63-65 | the loop sends exactly what the walk tries and returns its error |
| NotifierService.NotifierService.Init | src/app/services/notifier.ts:29-43 | subscribes to the topic, retries the failed jobs, and registers the processor only when all of them succeed |
| NotifierService.NotifierService.Recover | src/app/services/notifier.ts:33-36 | the loop's effects and result are the recovery of the failed jobs |
| NotifierService.NotifierService.Retry | src/app/services/notifier.ts:34-35 | notifies a failed job, then removes it; a failing notification leaves it in the queue |
| NotifierService.NotifierService.Process | src/app/services/notifier.ts:38-42 | notifies, then removes the job and reports it done; a failed notify stops there |
| NotifierService.NotifierService.Subscribe | src/app/services/notifier.ts:73-84 | a subscription confirmation fetches its URL and answers 200; a notification with a message enqueues the parsed payload and answers `Ok`; a missing or unparsable message fails with nothing enqueued |
| NotifierService.NotifierService.CreateRoutes | src/app/services/notifier.ts:86-91 | adds the `/api/v1/subscribe` route |
| NotifierService.NotifierService.Close | src/app/services/notifier.ts:55-58 | closes the queue |
| NotifierService.NewService | src/app/services/notifier.ts:14-17 | fails with the notifier error for an unknown driver; otherwise a service with that driver's mailer |
| NotifierService.DefaultMailerIsSes | src/app/services/notifier.ts:14-17 | without `NOTIFIER_DRIVER` the mailer is SES |
| AccountStore.Key | src/app/module/account/account.store.ts:71 | the cache key is `user:` followed by the id |
| AccountStore.KeyInjective | src/app/module/account/account.store.ts:71 | different ids have different cache keys |
| AccountStore.First | src/app/module/account/account.store.ts:55-59 | the first selected row, and none iff no row is selected |
| AccountStore.ApplyProfile | src/app/module/account/account.store.ts:99-113 | each truthy payload field replaces its column, `updated_at` is set, and every other column is unchanged |
| AccountStore.UpdateRows | src/app/module/account/account.store.ts:100-113 | every selected row changes, and no other |
| AccountStore.NewUser | src/app/module/account/account.store.ts:33-52 | the new row has the id, role 2, the password's hash only when one is given, and the account's fields |
| AccountStore.GetResult | src/app/module/account/account.store.ts:70-84 | a cached user is returned; otherwise the first live row with the id, and none iff there is no such row |
| AccountStore.AccountStore.constructor | src/app/module/account/account.store.ts:26-29 | the store holds the given table and cache |
| AccountStore.AccountStore.Create | src/app/module/account/account.store.ts:33-52 | inserts exactly the new row and leaves the cache untouched |
| AccountStore.AccountStore.Login | src/app/module/account/account.store.ts:54-68 | no live row gives nothing; a row without a password hash fails; a matching password caches and returns the user; a wrong one returns nothing |
| AccountStore.AccountStore.Get | src/app/module/account/account.store.ts:70-84 | the cache-aside read: the result is `GetResult`, and a row read from the table is cached under its key |
| AccountStore.AccountStore.GetByEmail | src/app/module/account/account.store.ts:86-97 | ignores the cache, returns the first live row with the e-mail, and caches it under its id |
| AccountStore.AccountStore.Update | src/app/module/account/account.store.ts:100-113 | updates every selected row; fails with `no result` when none is selected, else returns the first one updated |
| AccountStore.AccountStore.UpdateProfile | src/app/module/account/account.store.ts:99-117 | applies the profile to the live row with the id and caches the result; fails and changes nothing when there is none |
| AccountStore.AccountStore.ChangePassword | src/app/module/account/account.store.ts:119-130 | stores the new hash and the change time on the live row with the e-mail and caches it; fails and changes nothing when there is none |
| AccountStore.AccountStore.Deactivate | src/app/module/account/account.store.ts:132-142 | marks the row deleted, drops its cache key and returns the id; fails and changes nothing when there is no live row |
| AccountStore.AccountStore.VerifyEmail | src/app/module/account/account.store.ts:144-153 | sets `verified_at` on the live row and caches it; fails and changes nothing when there is none |
| AccountStore.GetAfterDeactivate | src/app/module/account/account.store.ts:70-84 | after deactivation `get(id)` gives nothing |
| AccountStore.GetAfterLogin | src/app/module/account/account.store.ts:63-65 | after a login has cached a user, `get` of its id returns that user |
| AccountStore.ProfileUpdateIdempotent | src/app/module/account/account.store.ts:99-113 | applying the same profile update twice equals applying it once |
| AccountStore.EmptyProfileTouchesOnlyUpdatedAt | src/app/module/account/account.store.ts:99-113 | an empty profile changes only `updated_at` |
| AccountStore.NewAccountFoundByEmail | src/app/module/account/account.store.ts:33-52 | a newly created account whose e-mail was unused is the first row found by that e-mail |
| ResetPasswordStore.Without | src/app/module/account/reset-password/reset-password.store.ts:42-46 | exactly the records of other e-mails remain |
| ResetPasswordStore.WithEmail | src/app/module/account/reset-password/reset-password.store.ts:49-51 | exactly the records of the e-mail |
| ResetPasswordStore.FirstWithEmail | src/app/module/account/reset-password/reset-password.store.ts:49-54 | the first record of the e-mail, and none iff there is none |
| ResetPasswordStore.Verification | src/app/module/account/reset-password/reset-password.store.ts:48-60 | true iff a record exists, the token matches its hash, and now is strictly before its expiry |
| ResetPasswordStore.ResetPasswordStore.constructor | src/app/module/account/reset-password/reset-password.store.ts:11-13 | the store holds the given records |
| ResetPasswordStore.ResetPasswordStore.Delete | src/app/module/account/reset-password/reset-password.store.ts:42-46 | removes every record of the e-mail and no other |
| ResetPasswordStore.ResetPasswordStore.Create | src/app/module/account/reset-password/reset-password.store.ts:16-40 | removes the e-mail's records, then adds one holding the token's hash and expiring an hour from now; returns the plaintext token |
| ResetPasswordStore.ResetPasswordStore.Verify | src/app/module/account/reset-password/reset-password.store.ts:48-60 | the answer is `Verification` of the current records |
| ResetPasswordStore.WithoutAbsent | src/app/module/account/reset-password/reset-password.store.ts:20-25 | deleting an e-mail with no records changes nothing |
| ResetPasswordStore.WithoutKeepsOthers | src/app/module/account/reset-password/reset-password.store.ts:42-46 | deleting one e-mail keeps every other e-mail's records, in order |
| ResetPasswordStore.WithEmailAppend | src/app/module/account/reset-password/reset-password.store.ts:30-37 | the records of an e-mail in two tables are those of each in turn |
| ResetPasswordStore.NoneLeft | src/app/module/account/reset-password/reset-password.store.ts:42-46 | after a delete no record of the e-mail remains |
| ResetPasswordStore.CreateLeavesOneRecord | src/app/module/account/reset-password/reset-password.store.ts:20-37 | after a create there is exactly one record for the e-mail |
| ResetPasswordStore.CreateThenVerify | src/app/module/account/reset-password/reset-password.store.ts:16-60 | a token just created verifies iff the time is before its hour runs out |
| ResetPasswordStore.VerifyAfterDelete | src/app/module/account/reset-password/reset-password.store.ts:42-60 | after `delete(e)` no token verifies for `e` |
| ResetPasswordStore.WrongTokenRejected | src/app/module/account/reset-password/reset-password.store.ts:56-57 | a token that does not match the stored hash is refused |

## Left out

- `toDate` and `toDuration` in src/lib/parser.ts depend on `Date` parsing and the `ms` library; they are not modelled.
- Parser.ToNumber: `Number(text)` is modelled only for strings of decimal digits. Any other text (signs, spaces, hexadecimal, decimals, `NaN`) is kept as `NonDecimal(text)`, because JavaScript's numeric grammar and floating point are not modelled. For the same reason a digit string above 2^53 gives its exact value, where `Number()` rounds it to the nearest double.
- Paginator.Paginate: a page or limit that is not a decimal-digit string gives no result, where the source would carry `NaN` on.
- Paginator.TotalPage: a limit of 0 gives no result, where the source would compute `Infinity` or `NaN`.
- Validator: lengths count characters, not UTF-16 code units, so a character outside the Basic Multilingual Plane counts once where JavaScript counts two.
- Validator.Errors: the schema library is not part of this model, so the order and number of its error messages are assumed: one message per property, in declaration order, and a missing required field gives one message only. Only whether there are any errors (Validator.ErrorsEmptyIffMatches) is claimed to match the library for every input. The lemmas that name a particular first message or a list of messages (AccountModel.RegisterEmptyBodyMessage, ExampleModel.BothFieldErrors, ExampleModel.BothFieldsReported, ValidatorMiddleware.EmptyRegisterBody) rest on that assumed order.
- Validator.Json: JSON numbers are integers; fractional numbers are not modelled, so the model cannot show that `Type.Number({ minimum: 1 })` accepts 1.5 and refuses 0.5.
- ConnectionMongoose, DbMongoose: `toLowerCase()` of the model name is modelled for ASCII letters only (Common.ToLower); other letters are kept as they are.
- Filetype.ParseSize: the number text that `toFixed(2)` writes is not modelled; the result is the unit chosen and the divisor the size is divided by.
- Validator.Describe: the message texts of the schema library are those of its default error function. The library itself is not part of this model, so the texts are not checked against it.
- The other string formats registered in src/lib/validator.ts (`date`, `uri`, `uuid`, and so on) are not modelled; no core schema uses them.
- Repeated calls of a validator closure give the same messages in this model, since every validator is a function of the body.
- Reading from the environment is a function of the environment map, so nothing can change it.
- JavaScript objects' inherited keys (`impls['toString']`) and explicitly `undefined` fields in an option spread are not modelled; an absent field is `None`.
- Broker.Create, Notifier.Create: each call building a fresh object is not modelled; the result is the kind of object built.
- Jwt.JwtRegistry.Create and Jwt.JwtRegistry.Use return nothing, where the source returns the class itself so that calls can be chained; chaining only changes how calls are written.
- Jwt: the `fast-jwt` signer and verifier are parameters, and the duration grammar of `ms()` for a non-empty text is the `parse` parameter; only its refusal of the empty string is modelled.
- NotifierService: the Redis connection and the Bull queue construction, the `Log.info` lines, and the mail transport are not modelled. Whether a send throws is a parameter function of the mail.
- NotifierService.NotifierService.Subscribe: the webhook body arrives already parsed as a `Notice`. The `JSON.parse` of its message and the `axios.get` of the subscribe URL are parameters.
- Job-queue internals (retry counts, backoff timing, priority ordering, stalled jobs, worker concurrency, draining on close) belong to the queue library. Only the requests the service makes are recorded.
- EventBroker: EventEmitter's listener-count warnings, `newListener` events and the exception raised by a throwing listener are not modelled.
- EventBroker.Emission: the error thrown for an unhandled `'error'` is the fixed text `Unhandled error.`; Node.js adds the inspected payload in parentheses, or throws the payload itself when it is an `Error`, and neither is modelled.
- App: the HTTP server's `listen`, the signal handlers and route logging are I/O. What opening or closing a store or plugin does is recorded as an effect.
- AccountStore: the cache's JSON round trip (dates become strings) and its one-hour expiry are not modelled. The cache is a map from key to user.
- AccountStore: database constraints (a unique e-mail, a unique id) are not modelled. An update changes every matching row, as SQL `UPDATE` does.
- AccountStore.AccountStore.Create and ResetPasswordStore.ResetPasswordStore.Create: bcrypt's salt and the uuid and random-token generation are parameters (`hash`, `id`, `token`).
- ResetPasswordStore: time is integer milliseconds; adding one hour ignores daylight-saving changes.
- Queue and Storage: how a queue or an S3 storage is built, and what it does afterwards, are not modelled. A registry entry records its name and option.

## Findings

| source | as written | input that shows it | evidently intended | confidence | as-written member | corrected member |
|---|---|---|---|---|---|---|
| src/lib/filetype.ts:22-29 | the size tests are strict on both sides, so 1024 bytes and exactly 1 GB fall through to the final `0 KB` | `parseSize(1024)` and `parseSize(1073741824)` give `0 KB` | `1 KB` and `1 GB` | high, not executed | Filetype.ParseSizeBoundaries | Filetype.ParseSizeIntended |
| src/lib/paginator.ts:40-43 | `totalPage` divides and rounds down | 30 rows with limit 25 give 1 page, which leaves 5 rows on no page | rounding up: 2 pages | medium, not executed | Paginator.TotalPageRoundsDown | Paginator.TotalPageCeil |
