# Mandi-plus invoice, truck, user and OTP core in Dafny

This project models the sequential business logic of the Mandi-plus back end, a NestJS
service for a commodity-trading marketplace. It covers:

- **The invoice write path.** `InvoicesService.create`, `update`, `findOne`,
  `findByInvoiceNumber` and `remove` work over an invoice table and a truck table. Both
  tables are unique-indexed. The invoice path also uses a PDF job queue and a file-upload
  backend.
- **The PDF worker step.** `InvoicePdfProcessor.process` loads the invoice, renders it,
  uploads the PDF and stores its URL.
- **The truck and user services.** These are keyed tables with check-then-write Conflict
  rules: one unique index on trucks, two on users.
- **The OTP service.** It stores SMS sessions and, on verification, selects the newest
  unused one.
- **The input layer.**
  - The multipart form-data pipe.
  - The `@Transform` lambdas and class-validator rules of the request DTOs.
  - The blank-to-null column transformer on `secondaryMobileNumber`.

## Structure

**The relational store: `Store.Database`.** It is one class holding the four tables as
maps from ids to rows, plus an id counter. It enforces what PostgreSQL enforces for this
schema:

- the unique indexes on `truckNumber`, `invoiceNumber`, `mobileNumber` and the non-null
  `secondaryMobileNumber` (several NULLs are allowed);
- the NOT NULL columns of trucks (owner and driver names and contacts) and of users
  (`name`);
- the two enum types of the users table: `users_state_enum` on the NOT NULL `state`
  column (29 members) and `users_identity_enum` on the nullable `identity` column;
- the invoice→truck foreign key with ON DELETE SET NULL.

A refused write returns `InvalidEnum`, `DuplicateKey`, `NotNull` or `ForeignKey` and
changes nothing. The enum input checks come before NOT NULL and the indexes.
`Valid()` is the invariant every operation keeps. It holds the four uniqueness
properties, the NOT NULL columns, the enum columns, resolved truck links and fresh ids.
Column lengths and numeric precision are not enforced (see "Left out").

**The services are classes over that store.** Each service method states its whole
outcome:

- which error it returns, and in which order the checks come;
- the new tables;
- the upload log (`Storage.StorageService.calls`);
- the job queue (`JobQueue.Queue.jobs`).

**The decisions the source leaves to outside code.** These become parameters:

- the upload backend, the PDF renderer and the SMS provider: function-valued fields;
- `JSON.parse`, `JSON.stringify` and `Number(...)`: function-valued parameters;
- the clock: a `now: nat` argument.

**Pure code.** The DTOs, the pipe's per-field rules and the column transformer are
functions and predicates. Lemmas characterise them.

**Regular expressions.** They are written in a small pattern language (`Pattern`): a
sequence of character-class pieces with repetition bounds, and a backtracking matcher.
Each DTO pattern is proved equivalent to a plain description of the strings it accepts.

### Where the code and the description differ

The model follows the code. Three paths fail in the code, and the model states that:

- **The update-path placeholder truck leaves the model's store unchanged.** `update`
  creates an unknown truck with only `truckNumber` set
  (src/modules/invoices/invoices.service.ts:179-182). The truck columns it leaves empty
  are NOT NULL (src/entities/truck.entity.ts:25-34,
  src/migrations/1766228597481-schema-for-truck-and-invoice.ts:9). So the store refuses
  that insert with `NotNull("ownerName")`, and the update fails with nothing changed.
  `Invoices.InvoicesService.Update` states this outcome.
- **A user created without a name is refused.** The user DTO makes `name` optional, but
  the column is NOT NULL (src/entities/user.entity.ts:40-41,
  src/migrations/1766230430250-schema-for-truck-and-invoice.ts:20-21), so `create`
  without a name fails with `NotNull("name")`.
- **A user whose state is not an enum member is refused.** The user DTO checks only
  that `state` is a non-empty string of at most 255 characters
  (src/modules/users/dto/create-user.dto.ts:35-39), but the column has the type
  `users_state_enum` (src/migrations/1766383729113-make-state-enum.ts:8-9,
  src/entities/user.entity.ts:43-47). So `create` or `update` with a state such as
  `"Maharashtra"` (the DTO's own example) fails with `InvalidEnum("state")`.
  `Users.UsersService.Create` and `Users.UsersService.Update` state this. The
  registration DTO, by contrast, checks the state with `@IsEnum`.

## Model

| member | source | states |
|---|---|---|
| CreateTruckDto.TruckNumberPatternShape | src/modules/trucks/dto/create-truck.dto.ts:18 | the truck-number regex accepts exactly: 2 capitals, 2 digits, 1-2 capitals, 4 digits (9 or 10 characters) |
| CreateTruckDto.AcceptedTruckNumber | src/modules/trucks/dto/create-truck.dto.ts:16-22 | every accepted truck number has length 9 or 10 and contains no lower-case letter |
| CreateTruckDto.TruckNumberChecksArePattern | src/modules/trucks/dto/create-truck.dto.ts:16-22 | `@IsNotEmpty` and `@MaxLength(20)` reject nothing the pattern accepts: the checks hold iff the value is a string of that shape |
| CreateTruckDto.ExampleTruckNumberAccepted | src/modules/trucks/dto/create-truck.dto.ts:12-22 | the documented example `MH12AB1234` is accepted |
| CreateTruckDto.ContactPatternShape | src/modules/trucks/dto/create-truck.dto.ts:38 | the contact regex accepts exactly an optional '+', then 2-15 digits whose first is 1-9 |
| CreateTruckDto.ContactChecks | src/modules/trucks/dto/create-truck.dto.ts:36-62 | both contact numbers are accepted iff they have that shape and at most 15 characters (such a string has no presentation selector, so its measured length is its character count) |
| CreateTruckDto.PlaceholderContactRejected | src/modules/invoices/invoices.service.ts:57 | the placeholder contact `0000000000` written by the invoice path fails the contact checks |
| CreateTruckDto.AcceptedDocuments | src/modules/trucks/dto/create-truck.dto.ts:86-107 | in an accepted body, permit, licence and challan are each absent or strings of measured length at most 255 |
| CreateUserDto.AcceptedMobile | src/modules/users/dto/create-user.dto.ts:16-20 | accepted iff optional '+', first digit 1-9, 2-15 digits and at most 15 characters; with '+', at most 14 digits |
| CreateUserDto.MaxLengthCutsOnlyPlusFifteen | src/modules/users/dto/create-user.dto.ts:18-19 | a number the pattern accepts but `@MaxLength(15)` refuses is '+' followed by 15 digits |
| CreateUserDto.SecondaryLikePrimary | src/modules/users/dto/create-user.dto.ts:22-27 | the secondary number is valid iff it is absent, or valid under the primary number's checks |
| CreateUserDto.AcceptedUserFields | src/modules/users/dto/create-user.dto.ts:29-84 | in an accepted body, the state is a non-empty string and the name is absent or a string, each of measured length at most 255; products, loadingPoint, destinationShopAddress, route, officeAddress and destinationAddress are each absent or arrays of strings |
| RegisterDto.IndianMobilePatternShape | src/modules/auths/dto/register.dto.ts:8-12 | `^[6-9]\d{9}$` accepts exactly 10 digits whose first is 6-9 |
| RegisterDto.AcceptedMobile | src/modules/auths/dto/register.dto.ts:8-12 | the register mobile check holds iff the value is such a string |
| RegisterDto.RegisterMobileIsUserMobile | src/modules/auths/dto/register.dto.ts:9 | every mobile accepted at registration also passes the user DTO's mobile checks |
| RegisterDto.StatesAreDistinct | src/migrations/1766383729113-make-state-enum.ts:8 | the state enum has 29 distinct members, and a registration state is accepted exactly when it is a string among them |
| LoginDto.AcceptedMobile | src/modules/auths/dto/login.dto.ts:4-6 | an accepted login mobile has 10 characters, all digits, the first 6-9, and no '+' |
| LoginDto.SameAsRegister | src/modules/auths/dto/login.dto.ts:5 | the login check accepts exactly the strings the register check accepts |
| VerifyOtpDto.AcceptedMobile | src/modules/auths/dto/verify-otp.dto.ts:4-5 | the mobile is accepted iff it is 10 digits starting 6-9, the same set as login |
| VerifyOtpDto.OtpOnlyLength | src/modules/auths/dto/verify-otp.dto.ts:7-8 | the OTP is accepted iff it is a string whose measured length (presentation selectors U+FE0E/U+FE0F not counted) is 4-6, whatever its characters; `1234` followed by three U+FE0F is accepted |
| UserEntity.SecondaryToNullIffBlank | src/entities/user.entity.ts:31-34 | `to` yields null exactly for null and whitespace-only strings, and otherwise returns the value untrimmed |
| UserEntity.SecondaryToExamples | src/entities/user.entity.ts:31-34 | `to(null)`, `to('')` and a whitespace string give null; a padded number is kept as given |
| UserEntity.SecondaryToIdempotent | src/entities/user.entity.ts:31-34 | `to(to(v)) == to(v)` |
| UserEntity.SecondaryRoundTrip | src/entities/user.entity.ts:35 | `from` is the identity, so reading back a written value gives what `to` stored |
| UserEntity.Stored | src/entities/user.entity.ts:26-38 | a stored row differs from the entity only in the secondary number, which is null iff it was null or blank |
| TruckEntity.MissingColumn | src/entities/truck.entity.ts:25-34 | an incomplete row names one of the four NOT NULL columns it leaves empty |
| TruckEntity.NewTruck | src/modules/trucks/trucks.service.ts:31 | `repository.create(dto)` fills every NOT NULL column and starts `claimCount` at the column default 0 |
| TruckEntity.ApplyChangesSuppliedOnly | src/modules/trucks/trucks.service.ts:77 | `Object.assign` replaces just the supplied columns, never `claimCount`; an empty patch changes nothing |
| TruckEntity.Placeholders | src/modules/invoices/invoices.service.ts:54-60 | the create-path placeholder is owner/driver 'Unknown', contacts '0000000000', 0 claims; the update-path one lacks `ownerName` (src/modules/invoices/invoices.service.ts:179-181) |
| InvoiceEntity.ApplyKeepsLinks | src/modules/invoices/invoices.service.ts:200-213 | the update patch never reaches the truck link, slip URLs or PDF URL; a supplied product list is stored stringified |
| CreateInvoiceDto.ListTransformShape | src/modules/invoices/dto/create-invoice.dto.ts:42-53 | a string becomes an array: the parsed JSON if that is an array, else `[value]`; non-strings pass unchanged |
| CreateInvoiceDto.ListTransformIdempotent | src/modules/invoices/dto/create-invoice.dto.ts:75-85 | applying the list transform to its own output changes nothing |
| CreateInvoiceDto.ClaimTransformIsBoolean | src/modules/invoices/dto/create-invoice.dto.ts:182 | the isClaim transform yields a boolean, true iff the value is 'true' or true |
| CreateInvoiceDto.TransformBody | src/modules/invoices/dto/create-invoice.dto.ts:42-160 | class-transformer keeps the body's key set; what it does to each field is stated in TransformedBodyShape (lists, isClaim) and NumberFieldsOfBody (quantity, rate, amount) |
| CreateInvoiceDto.NumberFieldAccepted | src/modules/invoices/dto/create-invoice.dto.ts:141-160 | after `@Type(() => Number)`, a field passes `@IsNumber @Min(0)` iff it is present, not an array, and `Number()` gives a value of at least 0; '' passes when `Number('')` is 0 |
| CreateInvoiceDto.NumberFieldsOfBody | src/modules/invoices/dto/create-invoice.dto.ts:141-160 | in the transformed body, quantity, rate and amount pass iff the sent values convert to numbers of at least 0 |
| CreateInvoiceDto.TransformedBodyShape | src/modules/invoices/dto/create-invoice.dto.ts:101-134 | after the transforms, a present isClaim is boolean and every list field sent as a string is an array |
| CreateInvoiceDto.ToCreateInvoice | src/modules/invoices/dto/create-invoice.dto.ts:15-160 | a valid body has non-empty required names and date, non-empty lists, and quantity, rate and amount at least 0 |
| ParseFormDataPipe.SplitTrimmed | src/common/pipes/parse-form-data.pipe.ts:33 | the split yields one more piece than there are commas |
| ParseFormDataPipe.Parsed | src/common/pipes/parse-form-data.pipe.ts:10-53 | the pipe's result has the same keys as the shallow copy |
| ParseFormDataPipe.IndexKeyed | src/common/pipes/parse-form-data.pipe.ts:10 | spreading an array gives its elements under the keys "0", "1", ... and nothing else |
| ParseFormDataPipe.FieldListsDisjoint | src/common/pipes/parse-form-data.pipe.ts:13-23 | no field is in two of the array, number and `isClaim` groups |
| ParseFormDataPipe.StagesCompose | src/common/pipes/parse-form-data.pipe.ts:25-53 | the three passes in turn equal the per-field description `Parsed` |
| ParseFormDataPipe.ParseArrayFields | src/common/pipes/parse-form-data.pipe.ts:25-37 | the array-field loop leaves exactly `AfterArrays` of its input |
| ParseFormDataPipe.ParseNumberFields | src/common/pipes/parse-form-data.pipe.ts:40-48 | the number-field loop leaves exactly `AfterNumbers` of its input |
| ParseFormDataPipe.Transform | src/common/pipes/parse-form-data.pipe.ts:5-56 | falsy or non-object input comes back unchanged; otherwise the result is `Parsed` of the shallow copy |
| ParseFormDataPipe.CommaSeparatedField | src/common/pipes/parse-form-data.pipe.ts:26-34 | a non-empty string JSON cannot parse becomes the trimmed comma pieces, one more than the commas, and the pieces join back to the string |
| ParseFormDataPipe.CommaSeparatedPiecesClean | src/common/pipes/parse-form-data.pipe.ts:33 | no piece contains a comma, and no piece starts or ends with whitespace |
| ParseFormDataPipe.UntouchedFields | src/common/pipes/parse-form-data.pipe.ts:13-27 | unlisted fields, and listed fields that are falsy or not strings, are unchanged |
| ParseFormDataPipe.ClaimCoercion | src/common/pipes/parse-form-data.pipe.ts:51-53 | isClaim stays when undefined, null or ''; otherwise it becomes true iff it is 'true' or true |
| ParseFormDataPipe.NumberFieldUntouched | src/common/pipes/parse-form-data.pipe.ts:40-48 | a number field is unchanged when undefined, null or '', or when it converts to NaN |
| ParseFormDataPipe.PipeAfterValidation | src/common/pipes/parse-form-data.pipe.ts:5-56 | run, as Nest runs it, after the global ValidationPipe (src/main.ts:11-17), the pipe leaves every property of a validated invoice DTO as it is |
| Store.PutKeepsUserIndexes | src/entities/user.entity.ts:13-14 | writing a user whose keys are free keeps both user indexes unique |
| Store.PutKeepsUserTable | src/entities/user.entity.ts:13-54 | writing a complete, transformed user with valid enum values whose keys are free keeps the whole user-table invariant: both indexes, the NOT NULL name, both enum columns, no blank stored secondary |
| Store.WithClaim | src/modules/trucks/trucks.service.ts:88 | the claim bump keeps the truck table's ids |
| Store.WithClaimRaisesOne | src/modules/trucks/trucks.service.ts:86-90 | the claim bump raises that truck's `claimCount` by exactly 1 and leaves every other row and column unchanged |
| Store.UnlinkAfterDelete | src/entities/invoice.entity.ts:103-106 | after a truck is deleted, no invoice links to it and every link still resolves |
| Store.NewestExists | src/modules/auths/otp.service.ts:46-52 | when some unused record exists for the mobile, a newest one exists |
| Store.MarkUsedRemovesCandidate | src/modules/auths/otp.service.ts:72-73 | marking a record used removes exactly it from the candidates |
| Store.NewestIgnoresOtherMobiles | src/modules/auths/otp.service.ts:46-52 | records of other mobiles do not affect which record is newest |
| Store.Database.constructor | src/migrations/1766228597481-schema-for-truck-and-invoice.ts:7-11 | the empty store satisfies the invariant |
| Store.Database.FindTruckByNumber | src/modules/trucks/trucks.service.ts:55-59 | returns the one truck with that number, or none iff nobody holds it |
| Store.Database.InsertTruck | src/migrations/1766228597481-schema-for-truck-and-invoice.ts:9-10 | refuses an incomplete row (NotNull) or a taken number (DuplicateKey), else adds one row under a fresh id |
| Store.Database.UpdateTruck | src/entities/truck.entity.ts:13 | writes one row unless its number is held by another truck |
| Store.Database.DeleteTruck | src/migrations/1766228597481-schema-for-truck-and-invoice.ts:11 | removes the row and nulls every invoice link to it |
| Store.Database.IncrementClaimCount | src/modules/invoices/invoices.service.ts:114 | the truck table becomes `WithClaim` of the old one |
| Store.Database.FindInvoiceByNumber | src/modules/invoices/invoices.service.ts:34-36 | returns the one invoice with that number, or none iff nobody holds it |
| Store.Database.InsertInvoice | src/migrations/1766228597481-schema-for-truck-and-invoice.ts:8-11 | refuses a dangling truck link (ForeignKey) or a taken number (DuplicateKey), else adds one row |
| Store.Database.UpdateInvoice | src/entities/invoice.entity.ts:13 | writes one row unless its link dangles or another invoice holds its number |
| Store.Database.DeleteInvoice | src/modules/invoices/invoices.service.ts:226 | removes exactly that row |
| Store.Database.FindUserByMobile | src/modules/users/users.service.ts:64-68 | the one user with that mobile, or none iff nobody holds it |
| Store.Database.FindUserBySecondary | src/modules/users/users.service.ts:33-35 | a user whose stored secondary equals the value, or none iff there is none |
| Store.Database.InsertUser | src/entities/user.entity.ts:13-54 | refuses a state outside its enum, then an identity outside its enum, then a missing name, then a taken mobile, then a taken stored secondary, changing nothing; succeeds exactly when none applies, adding the stored row |
| Store.Database.UpdateUser | src/entities/user.entity.ts:13-54 | the same checks, with the indexes checked against the other users; succeeds exactly when none applies, writing the stored row |
| Store.Database.DeleteUser | src/modules/users/users.service.ts:108 | removes exactly that row |
| Store.Database.InsertOtp | src/modules/auths/otp.service.ts:36-41 | adds one record under a fresh id |
| Store.Database.UpdateOtp | src/modules/auths/otp.service.ts:73 | writes back one record |
| Store.Database.FindNewestUnused | src/modules/auths/otp.service.ts:46-52 | a newest unused record for the mobile, or none iff there is no unused record |
| Storage.UploadAll | src/modules/storage/storage.service.ts:45-46 | on success, one URL per file in file order; otherwise the first failing file's error; success iff every file uploads |
| Storage.Logged | src/modules/storage/storage.service.ts:45 | one upload call per file, in order |
| Storage.StorageService.UploadMultipleFiles | src/modules/storage/storage.service.ts:37-47 | an empty list gives BadRequest with no call; otherwise every file is sent and the result is `UploadAll` |
| Storage.StorageService.UploadPdf | src/modules/queue/processors/invoice-pdf.processor.ts:52-56 | one PDF upload call, answered by the backend |
| JobQueue.Queue.Add | src/modules/invoices/invoices.service.ts:108-110 | appends exactly one job |
| Trucks.UpdateRuleGuardsIndex | src/modules/trucks/trucks.service.ts:65-75 | with the index intact, a number the update rule lets through is free, unless it is '' |
| Trucks.TrucksService.Create | src/modules/trucks/trucks.service.ts:19-33 | a taken number is Conflict with the table unchanged; otherwise exactly one row `NewTruck(dto)` is added |
| Trucks.TrucksService.FindOne | src/modules/trucks/trucks.service.ts:42-53 | NotFound for an unknown id; else the row with exactly the invoices linked to it |
| Trucks.TrucksService.FindByTruckNumber | src/modules/trucks/trucks.service.ts:55-59 | the one truck holding the number, or null iff none does |
| Trucks.TrucksService.Update | src/modules/trucks/trucks.service.ts:61-79 | NotFound; Conflict only for a supplied, truthy, different, taken number; otherwise the save fails (with `DuplicateKey`) exactly when the patch sets an empty truck number that another truck holds, and on success that one row is merged |
| Trucks.TrucksService.Remove | src/modules/trucks/trucks.service.ts:81-84 | NotFound, or exactly that row is deleted and its invoices unlinked |
| Trucks.TrucksService.IncrementClaimCount | src/modules/trucks/trucks.service.ts:86-90 | NotFound with nothing changed, or that truck's count rises by 1 |
| Users.CreateRuleIsIndex | src/modules/users/users.service.ts:31-42 | the create rule's secondary check refuses exactly the values the stored index would refuse |
| Users.UpdateRulesGuardIndexes | src/modules/users/users.service.ts:73-100 | with the indexes intact, keys the update rules let through are free, except '' for the mobile |
| Users.UsersService.Create | src/modules/users/users.service.ts:19-46 | Conflict on a taken mobile first, then on a taken secondary; then `InvalidEnum` for a state or identity outside its enum, then NotNull for a missing name; otherwise success, with exactly one stored row added |
| Users.UsersService.FindOne | src/modules/users/users.service.ts:54-62 | NotFound for an unknown id, else that row |
| Users.UsersService.FindByMobileNumber | src/modules/users/users.service.ts:64-68 | the one user holding the number, or null iff none does |
| Users.UsersService.Update | src/modules/users/users.service.ts:70-104 | NotFound; each key's Conflict is checked only when supplied, truthy and different; then `InvalidEnum` for a supplied state or identity outside its enum; otherwise the save fails exactly when the patch sets an empty mobile number that another user holds, and on success that row is merged and stored |
| Users.UsersService.Remove | src/modules/users/users.service.ts:106-109 | NotFound, or exactly that row is deleted |
| Otp.OtpService.SendOtp | src/modules/auths/otp.service.ts:23-42 | one SendSms request; a non-'Success' status is BadRequest with no record; else one unused record holding the provider's Details |
| Otp.OtpService.VerifyOtp | src/modules/auths/otp.service.ts:45-74 | no unused record: "OTP session not found" with no request; else one verify request for a newest record, which is marked used only on success |
| Invoices.CreateDefaults | src/modules/invoices/invoices.service.ts:76-97 | isClaim is true iff supplied true; optional texts are null iff absent or ''; slip URLs are null iff there are none; no PDF URL yet |
| Invoices.MergedUrls | src/modules/invoices/invoices.service.ts:196-197 | the stored URLs (null read as empty) come first and the new ones after |
| Invoices.UpdateRuleGuardsIndex | src/modules/invoices/invoices.service.ts:155-168 | with the index intact, a number the update rule lets through is free, unless it is '' |
| Invoices.InvoicesService.LinkForCreate | src/modules/invoices/invoices.service.ts:44-63 | no truthy number means no link; a known number reuses its truck; an unknown one adds exactly the placeholder |
| Invoices.InvoicesService.SaveNew | src/modules/invoices/invoices.service.ts:103-115 | saves the row, appends one job for it, and bumps the linked truck's count iff it is a claim |
| Invoices.InvoicesService.Create | src/modules/invoices/invoices.service.ts:29-118 | Conflict first with tables, uploads and queue untouched; success iff every upload succeeds; one job per success; claim count +1 iff a claim with a truck |
| Invoices.InvoicesService.FindOne | src/modules/invoices/invoices.service.ts:127-138 | NotFound for an unknown id, else the row with its truck |
| Invoices.InvoicesService.FindByInvoiceNumber | src/modules/invoices/invoices.service.ts:140-145 | the one invoice holding the number with its truck, or null iff none does |
| Invoices.InvoicesService.LinkForUpdate | src/modules/invoices/invoices.service.ts:171-183 | a known number gives its truck; an unknown one ends in the store's NotNull refusal with nothing changed |
| Invoices.InvoicesService.Prepare | src/modules/invoices/invoices.service.ts:152-186 | NotFound, then Conflict for a truthy, different, taken number, then the truck step; succeeds iff the row exists, there is no conflict and a truthy truck number is known |
| Invoices.InvoicesService.AddSlips | src/modules/invoices/invoices.service.ts:188-198 | with files, the upload results are appended to the stored list, or the first failure is returned |
| Invoices.InvoicesService.SaveChanges | src/modules/invoices/invoices.service.ts:200-219 | applies the patch, saves the row and appends one job; refused iff the patch sets an empty invoice number another invoice holds |
| Invoices.InvoicesService.Update | src/modules/invoices/invoices.service.ts:147-222 | NotFound, Conflict, placeholder refusal; past those, a failed upload returns its error, and with the uploads done the update succeeds iff it does not set an empty number another invoice holds; on success old URLs then new ones and one job; no truck row or claim count changes |
| Invoices.InvoicesService.Remove | src/modules/invoices/invoices.service.ts:224-227 | NotFound, or exactly that row is deleted |
| InvoicePdf.FilenameShape | src/modules/queue/processors/invoice-pdf.processor.ts:51 | the filename is `invoice-`, the invoice number, `-`, the decimal timestamp and `.pdf` |
| InvoicePdf.FilenamesDifferInTime | src/modules/queue/processors/invoice-pdf.processor.ts:51 | two runs at different times upload under different names |
| InvoicePdf.InvoicePdfProcessor.Process | src/modules/queue/processors/invoice-pdf.processor.ts:28-70 | an unknown id fails before render or upload; the render gets the slip URLs or []; any failure is returned with no write; on success only `pdfUrl` changes |

## Left out

- **PDF drawing.** src/modules/pdf/pdf.service.ts (pdfkit drawing, image fetching and
  resizing, float geometry) is not part of this model. The renderer is an oracle from
  an invoice, its truck and its slip URLs to bytes or a failure.
- **The upload backend.** The Cloudinary SDK in src/modules/storage/storage.service.ts
  is left out. Only `uploadMultipleFiles`' empty-list check and one-call-per-file
  behaviour are modelled, with the backend as an oracle.
- **Upload timing.** `Promise.all` rejects with whichever upload fails first in time.
  The model returns the first failure in list order, because it has no notion of time.
- **The SMS provider.** The provider is an oracle from a request to a reply or no
  reply. A missing reply (a network failure) is `Upstream`.
- **Auth and wiring.** The auth and token services (bcrypt, JWT), the controllers, the
  modules and the server setup are not part of this model.
- **Concurrency.** The model is strictly sequential. Check-then-write races between
  requests, queue redelivery and retries, and several workers are not modelled.
- **Numbers.** `quantity`, `rate` and `amount` are integers, not JavaScript floats.
  `Number(...)`, both in the pipe and in `@Type(() => Number)`, is an oracle that may
  return NaN (`None`). Its JavaScript results, such as `Number('') = 0`, are not fixed
  by the model.
- **String lengths.** `@MaxLength` and `@Length` measure as validator.js `isLength`
  does (`ClassValidator.MeasuredLength`). Strings are sequences of Unicode scalar
  values, so a lone UTF-16 surrogate cannot occur in a value.
- **JSON, dates and the clock.**
  - `JSON.parse` and `JSON.stringify` are oracles.
  - `new Date(...)` is not applied: `invoiceDate` keeps its text.
  - `@IsDateString` is an oracle.
  - `Date.now()` is the `now` argument.
  - `createdAt` of an OTP record is the `now` given to `SendOtp`.
- **Ids.** The database's uuid generation is a counter. The `Store.Database.Valid`
  invariant keeps every id below it.
- **Column lengths and numeric precision.** The store does not enforce varchar limits
  (for example 20 for `truckNumber`, 15 for the mobile numbers). It does not enforce the
  precision of the `numeric(10,2)` columns `quantity` and `rate` or of the
  `numeric(12,2)` column `amount`
  (src/migrations/1766228597481-schema-for-truck-and-invoice.ts:7) either. PostgreSQL
  refuses a value whose integer part has more than 8 (or 10) digits with "numeric field
  overflow", and rounds any value to two decimals. The model stores such values
  unchanged.
- **Explicit nullable values in patches.** The update DTOs are modelled as "every create
  property, possibly absent". An explicit `null` in a request body, which
  `Object.assign` would copy, is not modelled.
- **The global ValidationPipe.** The `whitelist`/`forbidNonWhitelisted` handling of
  unknown properties is not part of this model. The order of the two pipes is stated
  in `ParseFormDataPipe.PipeAfterValidation`, but no member composes them into one
  request path.
- **Transformer on search values.** Transformer `to` applied to search values: the
  secondary-number lookup compares with the value as given, and only stored rows hold
  the transformed value.
- **The `Identity` enum.** src/common/enums/user.enum.ts is not part of this model. Its
  values are taken from the users table's enum type.
- **Unused reads.** `findAll` in the three services is not modelled. It is a sorted read
  with no rule to state.
- **`Invoices.InvoicesService.Create` and `Update`: queue failures.** A failing
  `queue.add` is not modelled. The queue always accepts a job.
- **`InvoicePdf.InvoicePdfProcessor.Process`: the not-found error.** The processor
  throws a plain `Error` with its own message, and the model reports it as
  `NotFound("Invoice", id)`.
- **`Otp.OtpService.VerifyOtp`: ties.** The contract promises a record with the latest
  `createdAt`. When records share it, the database's choice among them is not
  determined.
