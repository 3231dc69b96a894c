# users-api professional operations, modelled in Dafny

This project models the professional (nurse) account operations of the
WeCarry users API:

- **add**: sign-up and adding a professional (`addProfessional`, `add`), the
  verification links it mails, and the CSV bulk import (`bulkAddProfessional`
  with its per-column parsers and its whole-row validation hook).
- **update**: `updateProfessional`, `updateItem`, `deleteItem`, `updateFiles`,
  the third-party link bookkeeping, the license verification, the update
  projection and its null-fill, and the completion notifications.
- **list**: the listing query builder (`listProfessionals`), with its search
  terms, statuses, order keys and status counts.
- **get**: `getProfessional` and `getProfessionalByToken`.
- **errors**: `toHttpError`, the mapping from error classes to HTTP statuses.

The document store is a class `Repository.Backend`. Its field `accounts` maps
each email to a record. Its field `log` is the sequence of effects an
operation causes: writes, audit entries, notifications, webhooks, storage
deletions. Methods that change the store are proved against functions.
Each such method's `ensures` gives its new log as `old(log) + Effects(...)`,
and lemmas state what those effect sequences contain and in what order.
Pure parts of the source, such as parsers, query builders, masks and
resolvers, are functions with named results, and lemmas prove their
properties. Clocks, token and id generators, the city, state and
department tables, and the external checks (access, Nursys, regular
expressions) are parameters.

Files, one Dafny module each:

| file | module | models |
|---|---|---|
| domain.dfy | Domain | shared records: professionals, affiliations, briefcase items, errors, effects |
| strings.dfy | Strings | the string functions the source calls: trim, split, join, case, digits |
| backend.dfy | Repository | the account store and its effect log |
| helper.dfy | HttpErrors | `toHttpError` |
| verify_link.dfy | VerifyLink | the `?token=…` query strings of the verification links |
| add_rules.dfy | AddRules | the pure decisions of `addProfessional` and `add` |
| add.dfy | AddAccount | `add` and `addProfessional` as methods on the store |
| import_tables.dfy | ImportTables | the bulk import's per-column parsers |
| import_validate.dfy | ImportValidate | the bulk import's whole-row validation hook |
| bulk_import.dfy | BulkImport | the import loop over the rows |
| update_access.dfy | UpdateAccess | access checks and storage deletions shared by the updates |
| update_patch.dfy | ProfilePatches | the partial records the updates work on |
| third_party_links.dfy | ThirdPartyLinks | `checkProfession` and `setThirdPartySystems` |
| license_verification.dfy | LicenseVerification | the license verification decision inside `updateItem` |
| update_select.dfy | UpdateSelect | `buildUpdateSelect` and the null-fill of the update result |
| completion.dfy | Completion | the profile-completed notifications |
| file_assets.dfy | FileAssets | `updateFiles`: storage keys, the move out of the upload folder, deletions |
| update_item.dfy | BriefcaseItems | `updateItem` and `deleteItem` |
| update_profile.dfy | ProfileUpdate | `updateProfessional` |
| read_side.dfy | ReadSide | masking, kept affiliations and license states shared by get and list |
| get_professional.dfy | GetProfessional | `getProfessional` |
| get_by_token.dfy | GetByToken | `getProfessionalByToken` |
| list_counts.dfy | StatusCounts | `getCounts` |
| list_query.dfy | ProfessionalList | `listProfessionals`: query building and answer |
| list_rules.dfy | ListRules | what a listing query means for a record |

## Model

| member | source | states |
|---|---|---|
| HttpErrors.ToHttpError | helper.ts:33-70 | the four account-state errors become status 403, the fourteen not-found and validation errors 400, the three conflict errors 409, and anything else (an `HttpError` included) is returned unchanged; the cause is always kept |
| HttpErrors.StatusClassesDisjoint | helper.ts:35-61 | the three case groups of the switch share no error class, so no error gets two statuses |
| HttpErrors.ToHttpErrorIdempotent | helper.ts:33-70 | mapping an already mapped error changes nothing: an `HttpError` falls to the default case |
| HttpErrors.WorkflowGateSharesConflictStatus | helper.ts:52-61 | `AddAffiliationRequired` answers 409 like `AccountAlreadyExists`, and `PasswordRequired` answers 400 like `UserNotFound` |
| HttpErrors.UnlistedErrorsPassThrough | helper.ts:64-65 | a profession conflict, a missing department and an authorization failure get no status here |
| Strings.Lower | src/add/add.ts:441-442 | `toLowerCase` maps each character, and keeps the length |
| Strings.Upper | src/list/list.ts:237 | `toUpperCase` maps each character, and keeps the length |
| Strings.LowerIdempotent | src/add/add.ts:441-442 | lower-casing twice equals lower-casing once |
| Strings.UpperEqualIffLowerEqual | src/update/update.ts:512 | comparing upper-cased strings decides the same as comparing lower-cased ones |
| Strings.Trim | src/add/add.ts:372 | `trim` returns the slice of its input left after removing a prefix and a suffix of white space (the full ECMAScript white-space and line-terminator set), and the slice neither starts nor ends with white space |
| Strings.Split | src/add/add.ts:834-837 | `split` on one character gives at least one part |
| Strings.JoinSplit | src/add/add.ts:834-837 | joining the parts of a one-character `split` with that character gives the string back |
| Strings.SplitPartsAvoidSeparator | src/add/add.ts:834-837 | no part of a `split` contains the separator |
| Strings.NonEmpty | src/add/add.ts:611-614 | `filter(Boolean)` keeps exactly the non-empty strings of the list and never lengthens it |
| Strings.NonEmptyConcat | src/add/add.ts:611-614 | filtering a concatenation filters each half and keeps them in order, so the kept strings stay in their original order |
| Strings.TrimAll | src/add/add.ts:614 | `map(i => i.trim())` trims each element in place |
| Strings.DigitsOnly | src/add/add.ts:404 | `replace(/\D/g, '')` keeps exactly the digits of the string and never lengthens it |
| Strings.DigitsOnlyConcat | src/add/add.ts:404 | the digits of a concatenation are the digits of each half, in order, so the kept digits stay in their original order |
| Strings.LastIndexOf | src/update/update.ts:1081 | `lastIndexOf` gives the last position of the character, or -1 exactly when it does not occur |
| Strings.SubstringFrom | src/update/update.ts:1083 | `substring(start)` is the suffix from `start`, the whole string for a start at or below 0, and "" past the end |
| Strings.NatToString | src/add/add.ts:969 | an index in a template literal renders as at least one digit, all digits |
| Strings.NatToStringValue | src/add/add.ts:969 | reading the rendered index back gives the index |
| Strings.NatToStringInjective | src/add/add.ts:969 | different indices render differently |
| VerifyLink.TokenText | src/add/add.ts:1569 | a defined token renders as itself inside the query string |
| VerifyLink.ActivationParams | src/add/add.ts:1569-1575 | the activation query's first parameter is `token` |
| VerifyLink.AddAffiliationParams | src/add/add.ts:1695-1704 | the add-affiliation query's first parameter is `token` |
| VerifyLink.DecodeEncode | src/add/add.ts:1569-1575 | decoding the encoded `key=value` parts of parameters free of `=` and `&` gives the parameters back |
| VerifyLink.SplitJoin | src/add/add.ts:1569-1575 | splitting the `&`-joined parts on `&` gives the parts back when no part holds `&` |
| VerifyLink.EncodedPartsAvoidAmpersand | src/add/add.ts:1569-1575 | no encoded part holds `&` |
| VerifyLink.ParseRender | src/add/add.ts:1569-1575 | rendering parameters whose keys and values hold no `&` or `=` and parsing the query string gives the parameters back |
| VerifyLink.ActivationQueryRenders | src/add/add.ts:1569-1575 | the string built by the `qs +=` steps is the rendering of the activation parameters |
| VerifyLink.AddAffiliationQueryRenders | src/add/add.ts:1695-1704 | the string built by the `qs +=` steps is the rendering of the add-affiliation parameters |
| VerifyLink.ActivationLinkDecodes | src/add/add.ts:1569-1575 | the activation link decodes to its parameters; it carries `isMarketplace` exactly when the organization is `null`, and `organizationId` exactly when one is given |
| VerifyLink.AddAffiliationLinkDecodes | src/add/add.ts:1695-1704 | the add-affiliation link decodes to its parameters, and carries `recruiterId` exactly when a non-empty recruiter id is given |
| AddRules.GetOrganization | src/add/add.ts:1145-1178 | a hospital user's own organization wins; otherwise a given id must exist (`OrganizationNotFound`); a hospital user left without one is `Unauthorized`; the result is absent only without a hospital session and without an id |
| AddRules.IsIrpAdd | src/add/add.ts:280-285 | an external add is IRP exactly when `isIrp` is true; a hospital session's add is IRP unless `isIrp` is false; any other add is not IRP |
| AddRules.SignupChannel | src/add/add.ts:255-261 | an API session's sign-up channel is "API", then the requested channel, else "WEB"; it is never empty |
| AddRules.SignupSubset | src/add/add.ts:240-251 | a public sign-up keeps only the identity fields of the payload and drops address, briefcase, affiliations and flags |
| AddRules.PrepareAdd | src/add/add.ts:189-266 | an unknown session user fails with `UserNotFound`; `PasswordRequired` exactly when neither a session, nor an external source, nor a password is given; a recruiter given by id must exist; a hospital session always carries an organization |
| AddRules.RejectedAffiliationStillRegistered | src/add/add.ts:1244-1251 | a rejected affiliation to the same organization still counts as registered for a non-IRP add, because the check ignores `rejectedAt` |
| AddRules.ResolveDepartment | src/add/add.ts:1274-1287 | the department is checked only with a department id and a session; it must belong to the add's organization, else `DepartmentNotFound` |
| AddRules.TokenFor | src/add/add.ts:1293-1297 | the stored token is reused while its expiry is set and not past; otherwise a fresh token is issued |
| AddRules.RefreshedAccount | src/add/add.ts:1299-1361 | the existing account gets the chosen token, an expiry seven days on, and the marketplace flag when a session adds without an organization; email, affiliations and activation are unchanged |
| AddRules.TokenReusedUntilExpiry | src/add/add.ts:1293-1304 | a re-trigger within the seven days hands out the token issued before, whatever fresh value is drawn then |
| AddRules.ExpiredTokenReplaced | src/add/add.ts:1293-1297 | an expired token is never handed out again |
| AddRules.OrgArgOf | src/add/add.ts:1259-1266 | `add` passes the link builders an organization or nothing, never `null` |
| AddRules.AddLinksNeverMarkMarketplace | src/add/add.ts:1571-1572 | no link built by `add` carries `isMarketplace`: the `null` branch of the builders is unreachable from it |
| AddRules.ActivationTemplate | src/add/add.ts:1577-1616 | the notice is `PRN_WELCOME` exactly for an IRP add with a session user, and `VERIFY_EMAIL_NURSE` otherwise |
| AddRules.RecruiterQueryId | src/add/add.ts:1313 | only an external add with a recruiter puts a recruiter id in the link; a recruiter payload without an id fails |
| AddRules.ExistingAccountError | src/add/add.ts:1317 | an existing account that passes the checks ends in `AddAffiliationRequired`, or in a `TypeError` when the recruiter id cannot be read |
| AddRules.ExistingAccountPathShape | src/add/add.ts:1292-1397 | the existing-account path writes first and never inserts; with a session and an organization it attaches the affiliation; with a session and no organization its first write sets the marketplace flag; without a session it refreshes the token and fires no webhook |
| AddRules.ResolveRecruiter | src/add/add.ts:1479-1489 | a recruiter payload with an email that an organization user has is replaced by that user; otherwise the payload is stored; a recruiter given by id is stored as that id |
| AddRules.NewAffiliation | src/add/add.ts:1454-1503 | the new affiliation is to the add's organization, created now by the session user (or the new account itself), accepted exactly for IRP adds with a session, never rejected or suspended; it carries third-party systems only from an API session, and a note exactly when notes were given |
| AddRules.NormalizeAddress | src/add/add.ts:1418-1439 | a given address keeps city and state, its country defaults to "US", and missing coordinates come from the city table |
| AddRules.DefaultCountries | src/add/add.ts:1441-1447 | every work city gets a country, and city and state are kept |
| AddRules.NewAccount | src/add/add.ts:1399-1506 | the inserted record has the new id and the payload's email, a fresh token expiring in seven days, e-mail communication set, and either exactly the new affiliation or the marketplace flag; an empty briefcase is dropped and every work city has a country |
| AddRules.NewAccountShape | src/add/add.ts:1454-1556 | a new account added for an organization has exactly one affiliation, accepted exactly for IRP adds with a session, and one added without an organization keeps the affiliations of the request body; the insert is the first effect; the webhook is the last effect exactly when it fires and the JNP welcome does not throw; a throwing JNP welcome leaves exactly the insert and the audit entry |
| AddRules.NewAccountOutcome | src/add/add.ts:1527-1539 | the new-account path fails with `TypeError` exactly for an IRP add for the JNP hospital without a session user (the welcome reads the absent user's name, add.ts:1651), and otherwise returns the record `NewAccount` builds |
| AddAccount.Screen | src/add/add.ts:1212-1272 | the existing account is checked in order: not a professional (`AccountAlreadyExists`), deactivated, a different profession, already registered; an already registered account that is not activated gets the activation notice again |
| AddAccount.Add | src/add/add.ts:1180-1559 | the outcome, the accounts and the appended log are exactly `AddRunOf` of the accounts before; a failed check changes no account and raises the error `Screen` picks, which is `AccountAlreadyExists` for a registered account and appends only the activation notice when that account is not activated; a missing department changes nothing; an existing account gets the refreshed token and the add ends in an error; a new email is inserted under that email with the new-account effects, and nothing else changes; the add then returns `NewAccountOutcome`, which is the `TypeError` of the no-session JNP welcome or the inserted record |
| AddAccount.AddRunOf | src/add/add.ts:1180-1559 | one add on a set of accounts: no other email's account changes and none is removed; an add that returns a record was a new email, and the accounts afterwards are the accounts before with that record under its email |
| AddAccount.CreateAccount | src/add/add.ts:1399-1558 | the built record is inserted under its email, and the log grows by the insert, the audit entry, the activation notice (and the JNP welcome) and the webhook; an IRP add for the JNP hospital without a session user stops with `TypeError` after the insert and the audit entry, before any notice or webhook |
| AddAccount.LogNewAccount | src/add/add.ts:1508-1556 | after the insert the log grows by exactly `NewAccountEffects`, and the path stops exactly when the JNP welcome is built without a session user; no account changes |
| AddAccount.AddToExistingWithoutSession | src/add/add.ts:1299-1318 | without a session the token is refreshed, the add-affiliation notice is sent, and the add ends in the workflow error |
| AddAccount.AddToExistingWithSession | src/add/add.ts:1320-1396 | with a session the token is refreshed and the affiliation attached (or the marketplace flag set); the welcome or add-affiliation notice and the JNP welcome follow, and the add ends in the workflow error |
| AddAccount.DefaultWorkCityCountries | src/add/add.ts:1441-1447 | the loop over the work cities computes `DefaultCountries` |
| AddAccount.CompleteAddress | src/add/add.ts:1418-1439 | the address steps compute `NormalizeAddress` |
| AddAccount.BuildNewAccount | src/add/add.ts:1399-1506 | the field-by-field assembly computes `NewAccount` |
| AddAccount.AddProfessional | src/add/add.ts:189-289 | a request that fails resolution changes nothing and returns that error; a returned record was a new email; a request that resolves has exactly `add`'s outcome on the prepared options: each failed check with its own error and its log (the activation notice for a registered, unactivated account), a missing department, the existing-account refresh with its workflow error, or the new account with its effects |
| ImportTables.FirstMatch | src/add/add.ts:439-443 | `find` returns the first row the text matches, ignoring case, or nothing when no row matches |
| ImportTables.Resolve | src/add/add.ts:436-444 | the text is kept when no row matches; otherwise it is kept or replaced by a matching row's canonical value |
| ImportTables.ResolvedValidatesIffMatched | src/add/add.ts:435-446 | on a table whose rows are found by their own canonical value, the parsed value passes `validate` exactly when the typed text matched a row |
| ImportTables.ResolveIgnoresCase | src/add/add.ts:439-443 | two spellings that differ only in letter case find the same row and resolve to the same value |
| ImportTables.StateEntries | src/add/add.ts:439-443 | a state row is found by its abbreviation or its name and resolves to its abbreviation |
| ImportTables.LicenseBodyEntries | src/add/add.ts:699-703 | a license body row is found by its name or its state and resolves to its name |
| ImportTables.LicenseTypeEntries | src/add/add.ts:715 | a license type row is found by its abbreviation and resolves to it |
| ImportTables.NameEntries | src/add/add.ts:602-603 | a named row is found by its name and resolves to it |
| ImportTables.DepartmentEntries | src/add/add.ts:513-515 | a department row is found by its name and resolves to its id |
| ImportTables.ParsedStateValidates | src/add/add.ts:432-447 | a typed state passes `validate` exactly when, once trimmed, it equals some state's abbreviation or name, ignoring case |
| ImportTables.ParsedDepartmentValidates | src/add/add.ts:507-519 | a department passes exactly when it is typed as some department's name (any case) or as its exact id |
| ImportTables.ParsePhone | src/add/add.ts:402-407 | a phone number keeps only digits |
| ImportTables.ParseSsn | src/add/add.ts:915-927 | the SSN is the last four digits of the cell, or all its digits when there are fewer than four |
| ImportTables.ParseListMembers | src/add/add.ts:608-616 | a list cell's entries are exactly the trimmed non-empty parts between its commas |
| ImportTables.BlankListEntrySurvives | src/add/add.ts:608-616 | a part made only of white space becomes an empty entry, because `filter(Boolean)` runs before `trim` |
| ImportTables.ResolveAll | src/add/add.ts:877-885 | each value resolved against the table, in order |
| ImportTables.ParseSpecialties | src/add/add.ts:777-790 | the parser computes `SpecialtiesOf`: split on commas, trim, replace each part by the specialty it names, drop empty parts; no result is empty |
| ImportTables.TrimResolveLoop | src/add/add.ts:782-787 | the in-place loop leaves each part trimmed and then resolved |
| ImportTables.WorkCityOf | src/add/add.ts:840-853 | one `city, state` entry has its state resolved, country "US" and no coordinates |
| ImportTables.WorkCitiesOf | src/add/add.ts:829-857 | the work cities are one entry per non-empty part between semicolons |
| ImportTables.WorkCityList | src/add/add.ts:839-854 | each value parsed in order, each in the US |
| ImportTables.ParseWorkCities | src/add/add.ts:832-857 | the parser computes `WorkCitiesOf`, and every entry's country is "US" |
| ImportTables.WorkCityLoop | src/add/add.ts:839-854 | the push loop computes `WorkCityList` |
| ImportTables.ParseWorkStates | src/add/add.ts:870-888 | the parser computes `WorkStatesOf`, one state per non-empty comma-separated part |
| ImportTables.WorkStateLoop | src/add/add.ts:877-885 | the push loop resolves each value in order |
| ImportValidate.RecruiterErrors | src/add/add.ts:945-960 | a recruiter with neither phone nor email gets exactly the email and phone-number errors, in that order; otherwise there is none |
| ImportValidate.CollectReferenceErrors | src/add/add.ts:962-981 | the references loop computes `ReferenceErrors` |
| ImportValidate.ReferencePathInjective | src/add/add.ts:969-975 | the error paths of different references, or of a reference's email and phone, differ |
| ImportValidate.ReferenceErrorsExact | src/add/add.ts:962-981 | a reference's email or phone-number error is reported exactly when that reference has neither, and every message is the contact-required text |
| ImportValidate.ReferenceErrorCount | src/add/add.ts:962-981 | there are exactly two errors per reference without phone and email |
| ImportValidate.LicenseTypeOf | src/add/add.ts:986-988 | the license's type row is found exactly when some abbreviation equals the type, ignoring case |
| ImportValidate.CollectLicenseErrors | src/add/add.ts:983-1002 | the licenses loop computes `LicenseErrorsFrom`, throwing where the source throws |
| ImportValidate.LicenseErrorsThrowIffUnknownType | src/add/add.ts:986-991 | the hook throws a `TypeError` exactly when some license's type has no row: `licenseType.detailsRequired` reads `undefined` |
| ImportValidate.LicenseErrorsExact | src/add/add.ts:990-1000 | when no license type is unknown, a license is reported exactly when its type requires details and it lacks number, body or expiration date |
| ImportValidate.CertifyingBodyOf | src/add/add.ts:936-942 | a certification keeps its name; since the table is loaded with only `profession` and `name` (src/add/add.ts:359), its rows carry no certifying body, so a certification listed in the table loses its body and an unlisted one is unchanged |
| ImportValidate.CertificationPassAddsNoBody | src/add/add.ts:935-943 | the pass never gives a certification a body it did not already have, and a second pass changes nothing |
| ImportValidate.CertifyingBodies | src/add/add.ts:935-943 | each certification updated in order |
| ImportValidate.CopyCertifyingBodies | src/add/add.ts:935-943 | the certifications loop computes `CertifyingBodies` |
| ImportValidate.WithCertifyingBodies | src/add/add.ts:935-943 | the certification pass changes no affiliation, email, work city or license |
| ImportValidate.Validate | src/add/add.ts:932-1005 | the hook throws exactly when a license type is unknown; otherwise a recruiter without contact is among its errors |
| ImportValidate.RunValidate | src/add/add.ts:932-1005 | the hook's loops compute `Validate` and `WithCertifyingBodies` |
| BulkImport.AsRowErrors | src/add/add.ts:1085-1088 | each inner error becomes one entry of the row's errors, in order |
| BulkImport.Unflatten | src/add/add.ts:1018 | a thrown error is the row's only error; a rejected row has at least one error; an accepted row had no field error and no hook error, and has been through the certification pass |
| BulkImport.AcceptedRowIsComplete | src/add/add.ts:945-1002 | in an accepted row the recruiter and every reference have a phone or an email, and every license has a known type and the details that type requires |
| BulkImport.Located | src/add/add.ts:1026-1041 | the located work cities are never more than the typed ones |
| BulkImport.LocatedExactly | src/add/add.ts:1026-1041 | a city is kept exactly when the city table knows it, and it then carries the table's coordinates |
| BulkImport.LocateWorkCities | src/add/add.ts:1026-1041 | the splice loop, which steps the index back after a removal, computes `Located` |
| BulkImport.ExactLicenseType | src/add/add.ts:1046-1048 | the first license type whose abbreviation is exactly the first license's type, or none when no row has it |
| BulkImport.FilterLicenses | src/add/add.ts:1052-1057 | a license is kept exactly when its type belongs to the profession |
| BulkImport.FilterLicensesConcat | src/add/add.ts:1052-1057 | the filter distributes over concatenation, so the kept licenses stay in their order and keep their multiplicity, as `filter` does |
| BulkImport.ByLicenseTypeSpec | src/add/add.ts:1043-1065 | the briefcase survives exactly when the first license's type is known; then the profession is that type's, the first license is kept, and a license is kept exactly when its type is of that profession |
| BulkImport.PrepareRecord | src/add/add.ts:1019-1065 | the record handed to `add` has the import channel, its located work cities and its profession from the first license |
| BulkImport.ImportOptions | src/add/add.ts:1067-1081 | `add` gets the session user, its organization and the record, and an IRP add exactly when the row's `isIrp` is true; a recruiter comes as a payload without an id |
| BulkImport.BulkAdd | src/add/add.ts:291-1096 | an unknown session user fails with `UserNotFound`; a failed organization lookup fails with its error; a session user without an organization fails with a `TypeError`; all three fail before any row and change nothing; otherwise there is one result per row, numbered from 1, and the results, the accounts and the appended log are the decoded rows run one after another by `RowsRun` |
| BulkImport.ImportRows | src/add/add.ts:1008-1093 | each row's result reports its own decoding, in row order, and one row's failure does not stop the next; the results, the accounts and the appended log are `RowsRun` of the rows on the accounts before |
| BulkImport.ImportNext | src/add/add.ts:1010-1092 | one pass of the loop: after the first `index` rows as `RowsRun` gives them, row `index + 1` leaves the store as `RowsRun` of the first `index + 1` rows |
| BulkImport.ImportRow | src/add/add.ts:1011-1092 | a result holds exactly one of a user and errors; a rejected row reports its decoding errors and changes nothing; an added user has the row's fresh id, its email and the import channel; an accepted row is `add` on its options: an error `add` raises is the row's one error, a returned user is stored under the row's email and nothing else changes, and the result, accounts and log are `RowRun` |
| BulkImport.AddedRow | src/add/add.ts:1066-1091 | a row's result is the user `add` returned, or exactly the one error it raised |
| BulkImport.RowRun | src/add/add.ts:1011-1092 | one decoded row on a set of accounts: a rejected row gives its decoding errors and changes nothing; an accepted row is `AddRunOf` on its options, with one result |
| BulkImport.RowsRun | src/add/add.ts:1008-1093 | the decoded rows in order, row k numbered k + 1, each run on the accounts the rows before it left, with one result per row |
| BulkImport.RowRunKeepsOtherAccounts | src/add/add.ts:1011-1092 | a row removes no account and leaves every account whose email it does not carry as it was |
| BulkImport.RowsRunKeepsOtherAccounts | src/add/add.ts:1008-1093 | an import removes no account, and an account whose email no accepted row carries ends as it began |
| BulkImport.RowsRunSnoc | src/add/add.ts:1008-1093 | the rows run in order: the first i + 1 rows are the first i rows, then row i + 1 on the accounts they left |
| Domain.FirstWrite | src/update/update.ts:418 | the first record write of an effect log: nothing before it writes, and it is a write when the log has one |
| UpdateAccess.ActingType | src/update/update.ts:254-256 | when the session is the professional, the acting user is the stored professional (present exactly when it is found); otherwise it is the session user looked up |
| UpdateAccess.AccessCheck | src/update/update.ts:254-264 | `UserNotFound` exactly when the professional or the acting user is missing; `Unauthorized` exactly when both exist and `hasAccess` fails; otherwise the acting user's type |
| UpdateAccess.HookEffects | src/update/update.ts:1141-1165 | at most one webhook call per affiliation, all of the requested kind |
| UpdateAccess.HookEffectsExact | src/update/update.ts:1141-1143 | an organization is called exactly when one of its affiliations is not rejected and has that webhook configured |
| UpdateAccess.HookPart | src/update/update.ts:498-506 | webhooks of one kind only, and none at all when the gating user type is `HospitalApi` |
| UpdateAccess.S3Deletes | src/update/update.ts:489-496 | one S3 delete per key, and nothing else |
| UpdateAccess.S3DeletesAt | src/update/update.ts:489-496 | the delete at each position is that of the key at the same position |
| UpdateAccess.S3DeletesExact | src/update/update.ts:489-496 | a key is deleted exactly when it is one of the keys |
| UpdateAccess.DeleteObjects | src/update/update.ts:489-496 | the deletes are appended to the log in key order and the accounts are unchanged |
| UpdateAccess.FirstWriteAfter | src/update/update.ts:418 | when nothing before the record write writes, the first write is that one |
| UpdateAccess.WriteSplits | src/update/update.ts:296-496 | with only copies, staging deletes and notices before the write and no copy after it, every copy precedes the write and every S3 delete follows it |
| ThirdPartyLinks.CheckProfession | src/update/update.ts:511-516 | a clash exactly when both professions are non-empty and differ once upper-cased |
| ThirdPartyLinks.CheckProfessionRelations | src/update/update.ts:511-516 | the clash is symmetric, case-only differences never clash, a clash needs different strings, and "RN" against "rn" is no clash |
| ThirdPartyLinks.FindId | src/update/update.ts:528 | `findIndex` by id: the first item with the id, or -1 when none has it |
| ThirdPartyLinks.FindIdSameIds | src/update/update.ts:528 | two lists with the same ids in the same places find every id at the same place |
| ThirdPartyLinks.Attach | src/update/update.ts:536-541 | one stored item's pass keeps the length, ids and fields of the incoming list |
| ThirdPartyLinks.Relink | src/update/update.ts:535-542 | all stored items' passes keep the incoming list's length |
| ThirdPartyLinks.RelinkItems | src/update/update.ts:535-542 | the re-attachment loop computes `Relink` |
| ThirdPartyLinks.RelinkOnlyMovesStoredLinks | src/update/update.ts:535-542 | ids and fields are kept; an item's links change only when it is the first with its id and a stored item with that id has links, which are then the ones it gets |
| ThirdPartyLinks.RelinkDeliversStoredLinks | src/update/update.ts:536-541 | with distinct stored ids, every stored item with links hands them to the first incoming item with its id |
| ThirdPartyLinks.Strip | src/update/update.ts:520-524 | every item loses its links and nothing else changes |
| ThirdPartyLinks.Relinked | src/update/update.ts:520-560 | a list is produced exactly when one was sent, with the sent length |
| ThirdPartyLinks.SetThirdPartySystems | src/update/update.ts:519-561 | only the four linked lists change; everything else in the briefcase patch is kept |
| ThirdPartyLinks.RelinkList | src/update/update.ts:535-542 | stripping and the loop of one list compute `Relinked` |
| ThirdPartyLinks.ApplyThirdPartySystems | src/update/update.ts:519-561 | the four lists, processed in turn, compute `SetThirdPartySystems` |
| ThirdPartyLinks.NonApiEducationLinksComeFromStore | src/update/update.ts:520-542 | for a session that is not `HospitalApi`, every link on a written education item is the link the stored record held for that id |
| ThirdPartyLinks.ApiLinksKeptForNewItems | src/update/update.ts:520-542 | a `HospitalApi` session's links on an education item whose id the store does not know are written as sent |
| ThirdPartyLinks.CopyLicenseLinks | src/update/update.ts:886-896 | only the license's links change; changed links are those of a persisted license with the same id; a persisted license with that id and links hands its links over |
| LicenseVerification.UserLines | src/update/update.ts:769-784 | one line per message: the message when some pattern flags it, the generic error otherwise |
| LicenseVerification.IsFlagged | src/update/update.ts:773-780 | the pattern scan that stops at the first match finds a match exactly when some pattern flags the message |
| LicenseVerification.FailureTexts | src/update/update.ts:765-790 | the raw messages are kept as they are, and the user-facing lines are `UserLines` |
| LicenseVerification.SupportNotice | src/update/update.ts:734-763 | at most one support notice is sent |
| LicenseVerification.Verify | src/update/update.ts:667-873 | the license keeps everything except its verification date and text, and every notice is a success, failure or manual-verification notice |
| LicenseVerification.DecideVerification | src/update/update.ts:667-873 | the branch, with flags that start cleared and are set in the nested branches, computes `Verify` |
| LicenseVerification.IneligibleLeftAlone | src/update/update.ts:671 | a license with neither an SSN and a date of birth nor a manual override is written as sent, with no suspension and no notice |
| LicenseVerification.IgnoredEmailVerifiedManually | src/update/update.ts:672-673 | an ignored email gives "Verified manually", no verification date, no suspension and no notice |
| LicenseVerification.NursysSuccessVerifies | src/update/update.ts:706-763 | a Nursys success sets the verification date to now and the text to "UNENCUMBERED", without suspension |
| LicenseVerification.NursysFailureSuspends | src/update/update.ts:764-801 | a Nursys failure suspends, disables the daily check, and stores the joined messages as the text, with no verification date |
| LicenseVerification.NotEVerifiableDoesNotSuspend | src/update/update.ts:803-836 | a license that Nursys cannot check, with Nursys enabled, is marked for manual verification and disables the daily check, without suspension |
| LicenseVerification.DisabledOrOverrideSuspendsUnlessOverride | src/update/update.ts:837-870 | with Nursys disabled or a manual override, the professional is suspended exactly when there is no override |
| LicenseVerification.VerifyFailsOnlyOnMissingBody | src/update/update.ts:803-870 | the branch throws a `TypeError` exactly when a manual notice on live or staging reads a missing license body |
| LicenseVerification.NursysOutcomeIrrelevantUnlessAsked | src/update/update.ts:706 | the Nursys outcome changes nothing unless Nursys is asked |
| LicenseVerification.SuspendNeverVerifies | src/update/update.ts:671-870 | a suspension needs an eligible license, no override and no ignored email, and leaves the verification date as it was |
| UpdateSelect.ChildKeys | src/update/update.ts:1292-1298 | at most one key per child |
| UpdateSelect.ChildKeysExact | src/update/update.ts:1292-1298 | a key is a child key exactly when it is `key.key2` for a defined child `key2` |
| UpdateSelect.BuildUpdateSelect | src/update/update.ts:1283-1307 | the loop over the request's fields computes `SelectKeys` |
| UpdateSelect.FieldKeysExact | src/update/update.ts:1286-1304 | one field selects its own name or its defined children, as its name says |
| UpdateSelect.SelectKeysExact | src/update/update.ts:1283-1307 | a key is selected exactly when it is a defined top-level field other than `briefcase` and `jobs`, or a defined child of one of those two |
| UpdateSelect.GroupNamesNeverSelected | src/update/update.ts:1291-1301 | `briefcase` and `jobs` themselves are never selected |
| UpdateSelect.NullFill | src/update/update.ts:1127-1137 | the null-fill loop computes `FillAll` |
| UpdateSelect.FillOnlyAddsNulls | src/update/update.ts:1127-1137 | the fill adds nulls and changes no value that was there |
| UpdateSelect.PlainKeysFilled | src/update/update.ts:1130-1133 | every select key without a dot is present in the record sent |
| UpdateSelect.FillIdempotent | src/update/update.ts:1127-1137 | filling twice is filling once |
| UpdateSelect.FillFixedPoint | src/update/update.ts:1127-1137 | a refill with any of the keys already filled changes nothing |
| UpdateSelect.FilledKeyStable | src/update/update.ts:1127-1137 | the fill of a key already filled changes nothing |
| Completion.RecruiterEmail | src/update/update.ts:1359 | only a live affiliation whose recruiter has a non-empty email is notified |
| Completion.Recipients | src/update/update.ts:1358-1386 | at most one recruiter per affiliation |
| Completion.RecipientsExact | src/update/update.ts:1358-1386 | an email is notified exactly when some live affiliation's recruiter has it |
| Completion.RecruiterNotices | src/update/update.ts:1366-1384 | one `BRIEFCASE_COMPLETED_TO_RECRUITER` notice per recruiter |
| Completion.NoticesShareOneToken | src/update/update.ts:1362-1376 | every recruiter notice goes to its recruiter with the link of the one share |
| Completion.CompletionEffects | src/update/update.ts:1309-1391 | every effect is a completion notice or the share write |
| Completion.PendingCompletion | src/update/update.ts:422-424 | nothing is sent once the stored briefcase is completed |
| Completion.NotifyRecruiters | src/update/update.ts:1355-1387 | the share is created exactly when some recruiter is notified, and every notice carries its token |
| Completion.RecipientsStep | src/update/update.ts:1358-1386 | one more affiliation adds its recruiter, if it has one, to the recipients and the notices |
| Completion.SendCompletedNotifications | src/update/update.ts:1309-1391 | the send as the source runs it computes `CompletionEffects` |
| Completion.CompletionSendsOnce | src/update/update.ts:1335-1390 | nothing unless the reread briefcase is completed; otherwise at most one share write, then the professional's notice, then one notice per recruiter with that share's link |
| FileAssets.Extension | src/update/update.ts:1081 | the extension with its dot and no later dot, or the whole URL when it has no dot |
| FileAssets.ProcessFiles | src/update/update.ts:1059-1120 | one value per field, and only copies and staging deletes as effects |
| FileAssets.ProcessField | src/update/update.ts:1079-1116 | the loop body computes `ProcessFile` for one field |
| FileAssets.UpdateFiles | src/update/update.ts:1078-1117 | the loop computes `ProcessFiles` |
| FileAssets.KeyInUserFolder | src/update/update.ts:1082 | every permanent key lies in the upload folder, under the user's id |
| FileAssets.RewrittenFieldIsManaged | src/update/update.ts:1105 | a rewritten field holds a bucket URL whose key is the permanent key |
| FileAssets.KeysOfDifferentSecondsDiffer | src/update/update.ts:1082 | keys made in different seconds differ |
| FileAssets.ReplacementDeletesPrevious | src/update/update.ts:1085-1091 | a later upload to the same field deletes the previous key unless the file keeps history; one in the same second with the same extension deletes nothing |
| FileAssets.DeletesStayInUploadFolder | src/update/update.ts:1085-1091 | only keys of the upload folder are scheduled for deletion |
| FileAssets.FilesRewritten | src/update/update.ts:1078-1117 | a field with an upload gets its permanent URL; every other field is left as it was |
| FileAssets.EveryUploadIsCleared | src/update/update.ts:1111-1115 | every staging record paired with a field is deleted once, in field order |
| FileAssets.ItemFileKeys | src/update/update.ts:1029-1037 | at most one key per value, each in the upload folder |
| FileAssets.CollectItemKeys | src/update/update.ts:1029-1037 | the loop appends `ItemFileKeys` to the keys from `updateFiles` |
| FileAssets.ItemFileKeysExact | src/update/update.ts:1029-1037 | every bucket URL of the item is collected as its key, and nothing else is |
| BriefcaseItems.AfterWrite | src/update/update.ts:877-900 | only staging deletes and the audit entry; staging records are deleted exactly for an added item with an id |
| BriefcaseItems.VerdictOf | src/update/update.ts:667-873 | only a license gets a verdict, whose notices are verification notices; the step fails exactly when `Verify` fails |
| BriefcaseItems.SuspendPart | src/update/update.ts:907-912 | the suspension is issued exactly when the verdict suspends, with its audit entry |
| BriefcaseItems.FollowUpsFacts | src/update/update.ts:902-942 | the follow-ups hold no copy and no staging delete, suspend exactly as asked, call no webhook for an acting `HospitalApi` user, and send no recruiter notice or share once the briefcase is completed |
| BriefcaseItems.IssueFollowUps | src/update/update.ts:902-942 | the follow-ups, issued group after group, compute `FollowUps` |
| BriefcaseItems.WriteAndFollowUp | src/update/update.ts:875-942 | the log gets the write, then what follows it, and the accounts are unchanged |
| BriefcaseItems.UpdateItem | src/update/update.ts:563-945 | the method's result and the effects it appends are those of `UpdateItemRun`; the accounts are unchanged |
| BriefcaseItems.ItemAccessFailureIssuesNothing | src/update/update.ts:638-648 | a failed access check issues nothing and fails with `UserNotFound` or `Unauthorized` |
| BriefcaseItems.ItemRunPieces | src/update/update.ts:563-945 | a successful run is made of the access check, `updateFiles` and the verdict, in that order |
| BriefcaseItems.EffectsOrder | src/update/update.ts:664-942 | for any pieces, the record write comes after every copy and before every S3 delete, and the staging deletes before it are those of `updateFiles` |
| BriefcaseItems.ItemWriteOrder | src/update/update.ts:664-942 | in a successful run, every copy precedes the record write, every S3 delete follows it, and every staging record is cleared before it |
| BriefcaseItems.EffectsGates | src/update/update.ts:902-929 | for any pieces, the suspension comes exactly from the verdict, an acting `HospitalApi` user calls no webhook, and a completed briefcase sends no recruiter notice |
| BriefcaseItems.SuspendOnlyFromVerdict | src/update/update.ts:907-912 | the professional is suspended exactly when the item is a license whose verdict suspends |
| BriefcaseItems.LicenseUpdateKeepsPersistedLinks | src/update/update.ts:886-897 | an updated license is written as the verdict's license with the persisted links, and keeps its id |
| BriefcaseItems.ItemFollowUpGates | src/update/update.ts:919-929 | an acting `HospitalApi` user calls no webhook, and a completed stored briefcase sends no recruiter notice and no share |
| BriefcaseItems.WriteAndDelete | src/update/update.ts:1039-1054 | the write, the audit entry, the object deletes in order, then the item-deleted webhooks |
| BriefcaseItems.DeleteItem | src/update/update.ts:947-1057 | the method's result and the effects it appends are those of `DeleteItemRun`; the accounts are unchanged |
| BriefcaseItems.DeleteEffectsOrder | src/update/update.ts:1026-1054 | for any pieces, the write comes right after `updateFiles`' effects, and the S3 deletes follow it, one per key in key order |
| BriefcaseItems.DeleteOrder | src/update/update.ts:1026-1054 | a delete writes before every S3 delete, deletes only upload-folder keys, and deletes every bucket file of the deleted item |
| ProfileUpdate.ProfileCheck | src/update/update.ts:254-272 | the access error first; then `EmailAlreadyInUse` exactly when a changed email is taken; then `ProfessionAlreadyAssigned` exactly on a profession clash; otherwise the acting user's type |
| ProfileUpdate.LinkStep | src/update/update.ts:288-294 | only the briefcase's linked lists change; consent, Nursys, step and licenses are kept |
| ProfileUpdate.WorkStatesStep | src/update/update.ts:305-311 | the default as written never changes the patch, since its guard cannot hold |
| ProfileUpdate.BriefcaseStep | src/update/update.ts:313-327 | only the briefcase changes, and it is kept exactly when it was sent |
| ProfileUpdate.EmailStep | src/update/update.ts:329-333 | only the verified flag, the token and its expiry change |
| ProfileUpdate.FindCity | src/update/update.ts:340-349 | `findOne`: the first row with this city, state and country, or -1 when none has them |
| ProfileUpdate.AddressStep | src/update/update.ts:335-354 | only the address changes, and it is kept exactly when it was sent |
| ProfileUpdate.AddressStepRule | src/update/update.ts:335-354 | the country defaults to "US", and the coordinates change only to those of a matching table row |
| ProfileUpdate.MatchingCities | src/update/update.ts:356-369 | at most as many cities as the table has |
| ProfileUpdate.MatchingCitiesExact | src/update/update.ts:356-369 | a table city is kept exactly when some request names it |
| ProfileUpdate.WorkCitiesStep | src/update/update.ts:356-369 | only `jobs` changes |
| ProfileUpdate.PictureKeys | src/update/update.ts:379-399 | at most the picture's and the thumbnail's keys |
| ProfileUpdate.PictureStep | src/update/update.ts:401-402 | only the two picture fields change |
| ProfileUpdate.PictureDeletes | src/update/update.ts:371-405 | only S3 deletes |
| ProfileUpdate.PictureDeletesExact | src/update/update.ts:371-405 | a key is deleted exactly when the picture is sent as null and the key is the stored picture's or thumbnail's, each only when the bucket owns it |
| ProfileUpdate.ChangeTemplate | src/update/update.ts:426-478 | the template is one of the three email notices |
| ProfileUpdate.EmailNotice | src/update/update.ts:426-478 | only email notices |
| ProfileUpdate.SmsNotice | src/update/update.ts:480-487 | only the onboarding SMS |
| ProfileUpdate.FileHooks | src/update/update.ts:502-506 | rounds of the one file-uploaded round only, and none when that round is empty |
| ProfileUpdate.ProfileNotices | src/update/update.ts:422-487 | only notices and the share write |
| ProfileUpdate.ProfileHooks | src/update/update.ts:498-506 | only webhooks, and none for a `HospitalApi` session |
| ProfileUpdate.SettleBriefcase | src/update/update.ts:313-327 | the in-place briefcase rules compute the consent step, then the Nursys step |
| ProfileUpdate.SettleEmail | src/update/update.ts:329-333 | the in-place email rule computes `EmailStep` |
| ProfileUpdate.PreparePatch | src/update/update.ts:288-405 | the patch built step by step computes `PreparedPatch` |
| ProfileUpdate.SendProfileNotices | src/update/update.ts:422-487 | the notices, sent one after the other, compute `ProfileNotices` |
| ProfileUpdate.PublishProfileHooks | src/update/update.ts:498-506 | the webhook rounds compute `ProfileHooks` |
| ProfileUpdate.FollowProfileWrite | src/update/update.ts:420-506 | the log gets everything after the write, and the accounts are unchanged |
| ProfileUpdate.UpdateProfessional | src/update/update.ts:174-509 | the method's result and the effects it appends are those of `UpdateProfessionalRun`; the accounts are unchanged |
| ProfileUpdate.ProfileCheckFailureIssuesNothing | src/update/update.ts:254-272 | a failed check issues nothing and fails with one of the four check errors |
| ProfileUpdate.ProfileRunPieces | src/update/update.ts:254-506 | a run that passes its checks returns the prepared patch, and its effects are those of `updateFiles` and the prepared patch |
| ProfileUpdate.EmailTokenRule | src/update/update.ts:303-333 | a changed email clears verification, expires in seven days, and keeps the stored token when it is still valid (else a fresh one); an unchanged email leaves these fields as sent |
| ProfileUpdate.BriefcaseRules | src/update/update.ts:313-327 | consent is stamped now when given and removed otherwise; Nursys settings stay only for an admin who sets `isEnabled`, with the stored text when there is one |
| ProfileUpdate.WorkStatesNeverDefaulted | src/update/update.ts:305-311 | the written work states are always those sent |
| ProfileUpdate.PictureRule | src/update/update.ts:371-405 | a picture sent as null clears both picture fields; otherwise both are written as sent |
| ProfileUpdate.AddressRule | src/update/update.ts:335-354 | the address written is the sent one after the address step |
| ProfileUpdate.WorkCitiesRule | src/update/update.ts:356-369 | non-empty requested work cities are written as the table cities they name; all else about `jobs` is written as sent |
| ProfileUpdate.ProfileEffectsOrder | src/update/update.ts:296-496 | for any pieces, every copy precedes the write, the deletes before it are the cleared picture's, those after it are the superseded objects', all of which are deleted |
| ProfileUpdate.ProfileWriteOrder | src/update/update.ts:296-496 | in a successful run, copies and picture deletes precede the record write, every staging record is cleared before it, and every superseded object is deleted after it |
| ProfileUpdate.ProfileEffectsSources | src/update/update.ts:418-506 | the email notices go out after the write and come only from the email step; the SMS, the completion notices and the webhooks each come from their own part |
| ProfileUpdate.EmailNoticeSent | src/update/update.ts:426-478 | a changed email gets the template its account state calls for, after the write, with the written token in its link |
| ProfileUpdate.NoEmailNoticeUnchanged | src/update/update.ts:426 | an unchanged email gets no email notice |
| ProfileUpdate.SmsRule | src/update/update.ts:480-487 | the SMS is sent exactly when the briefcase reaches step 2 and a phone is known, to the sent phone or else the stored one |
| ProfileUpdate.ProfileHooksRule | src/update/update.ts:498-500 | no webhook for a `HospitalApi` session; otherwise an organization gets the updated webhook exactly when one of its live affiliations has it configured |
| ProfileUpdate.ProfileCompletionGate | src/update/update.ts:422-424 | once the stored briefcase is completed, no completion notice and no share go out |
| ReadSide.Mask | src/get/get.ts:137-145 | a present, non-empty value becomes the marker; an absent value stays absent; no plain non-empty value survives |
| ReadSide.MaskSecrets | src/get/get-by-token.ts:56-64 | only the date of birth and the SSN change, and neither is left as a plain non-empty value |
| ReadSide.MaskIdempotent | src/get/get.ts:137-145 | masking twice is masking once |
| ReadSide.Kept | src/get/get.ts:123-130 | only non-rejected affiliations, and only those of the organization when one is given |
| ReadSide.KeptExact | src/get/get.ts:123-130 | an affiliation is kept exactly when it is one of the record's and passes both tests |
| ReadSide.StateOfBody | src/get/get.ts:157 | the body's state when the lookup has the body, and undefined otherwise |
| ReadSide.LicensesWithStates | src/get/get.ts:155-159 | each license, in place, gets the state of its body and nothing else |
| ReadSide.WithLicenseStates | src/get/get.ts:155-159 | only the licenses of the briefcase change, and a record without a briefcase is left as it is |
| ReadSide.FillLicenseStates | src/get/get.ts:155-159 | the loop over the licenses computes `WithLicenseStates` |
| ReadSide.LicenseStatesAttached | src/get/get.ts:152-159 | every license carries its body's state exactly when the lookup knows the body, and is otherwise unchanged |
| GetProfessional.FindNurse | src/get/get.ts:96-104 | the record found is one of the records, a professional with the id; none is found only when no professional has it |
| GetProfessional.VisibleAffiliations | src/get/get.ts:115-135 | a non-empty list, only when affiliations are selected outside a share read; an affiliation is returned exactly when it is live and (for a hospital user) of the hospital user's organization, and the list is `Kept` in the record's order, dropped when empty; it fails with `TypeError` exactly when a hospital user without an organization meets a live affiliation |
| GetProfessional.KeptFacts | src/get/get.ts:123-130 | an affiliation is kept for the reader's scope exactly when it is one of the record's live ones, of the hospital user's organization when the reader is one |
| GetProfessional.Redacted | src/get/get.ts:111-159 | only the marketplace flag, affiliations, secrets and briefcase change; the flag is dropped exactly when the source deletes it; the affiliations are exactly `VisibleAffiliations`, whose failure is the only failure; secrets masked exactly for a share that is not `full`; the licenses get their states exactly on a share read or a `briefcase.licenses` select, and the briefcase is unchanged otherwise |
| GetProfessional.GetOutcome | src/get/get.ts:32-164 | an invalid session is `Unauthorized`; no session user is `UserNotFound`; a user who is not a professional without `userId` gets nothing; a returned record is the accessible professional with the id asked, or the reader's own; a missing record gives an empty answer, a found record the reader may not access is `Unauthorized`, and a found record the reader may access is returned as `Redacted` makes it |
| GetProfessional.GetProfessional | src/get/get.ts:32-164 | the read, with checks in order and the record changed field by field, computes `GetOutcome` |
| GetProfessional.OwnRecordWithoutUserId | src/get/get.ts:67-73 | a professional's session without `userId` reads exactly what it reads with its own id |
| GetProfessional.InaccessibleRefused | src/get/get.ts:106-109 | a found record the reader may not access is refused with `Unauthorized` |
| GetProfessional.ReturnedRecordRedacted | src/get/get.ts:111-145 | returned affiliations are non-empty, live and (for a hospital user) of its organization; a share read has no affiliations and no marketplace flag; masked secrets hold no plain value |
| GetByToken.Scrubbed | src/get/get-by-token.ts:97-104 | the tokens and their expiries are removed; an affiliation is kept exactly when it is live, in the record's order; nothing else changes |
| GetByToken.TokenReadOf | src/get/get-by-token.ts:44-105 | a missing or expired share is `ShareExpired`; a share read returns the record, masked unless the access is `full`; a token read is `Unauthorized` exactly when the record is missing or a given token does not match or has expired, and otherwise returns the scrubbed record; a valid share returns the record when it exists and fails with `TypeError` when it does not |
| GetByToken.GetProfessionalByToken | src/get/get-by-token.ts:27-105 | the read, guards first and then the record changed field by field, computes `TokenReadOf` |
| GetByToken.ExpiryAtNowAccepted | src/get/get-by-token.ts:85-95 | a token that expires at the current instant is still accepted; one that expired a moment earlier is refused |
| GetByToken.NoTokenReadsAnyRecord | src/get/get-by-token.ts:85-104 | a read with no token at all is never refused: any existing id is returned, scrubbed |
| StatusCounts.RowInOneBucket | src/list/list.ts:545-669 | each unwound row falls into exactly one of the six buckets; an accepted row is an issue or active, an unaccepted one is a lead, registered, licensed or completed |
| StatusCounts.BucketsOfFlags | src/list/list.ts:548-668 | the six bucket conditions, over the five flags they read, are exclusive and exhaustive |
| StatusCounts.Tally | src/list/list.ts:545-683 | no rows give all six counts zero |
| StatusCounts.TallyTotal | src/list/list.ts:545-669 | together the six counts count every row once |
| StatusCounts.TallyAccepted | src/list/list.ts:625-668 | the issue and active counts together count the accepted rows |
| StatusCounts.TallyPartitions | src/list/list.ts:545-669 | every row is counted once, the accepted ones as issues or active, the others in the four onboarding buckets |
| StatusCounts.RowsOf | src/list/list.ts:530-544 | at most one row per affiliation |
| StatusCounts.RowsOfExact | src/list/list.ts:530-544 | a row pairs the professional with one of its affiliations to the organization |
| StatusCounts.UnwoundExact | src/list/list.ts:527-544 | a row is counted exactly when it pairs a matching professional with one of its affiliations to the organization, rejected ones included |
| StatusCounts.GetCounts | src/list/list.ts:519-684 | the counts sum to the number of unwound rows |
| ProfessionalList.ScopedOrganization | src/list/list.ts:128-130 | a hospital user lists its own organization whatever was asked, and fails with `TypeError` without one; anyone else lists the organization asked |
| ProfessionalList.LowerAll | src/list/list.ts:205 | each string lower-cased, in place |
| ProfessionalList.AbbreviationsNamed | src/list/list.ts:207-209 | at most one abbreviation per state row |
| ProfessionalList.Distinct | src/list/list.ts:237-239 | only values of the input |
| ProfessionalList.StateConds | src/list/list.ts:237-241 | one `address.state` condition per abbreviation, in order |
| ProfessionalList.TermClauses | src/list/list.ts:204-244 | one `$or` per term, in order |
| ProfessionalList.SpecialtyConds | src/list/list.ts:327-331 | one condition per specialty |
| ProfessionalList.Directed | src/list/list.ts:424-478 | one sort key per field, all in the given direction |
| ProfessionalList.StateConditions | src/list/list.ts:237-241 | the loop builds one condition per distinct candidate, in first-occurrence order |
| ProfessionalList.StateConditionStep | src/list/list.ts:237-241 | one pass of the loop adds a condition exactly for a new abbreviation |
| ProfessionalList.DistinctStep | src/list/list.ts:239 | one more candidate extends the distinct list only when it is new |
| ProfessionalList.StateCondsStep | src/list/list.ts:240 | one more abbreviation appends its condition |
| ProfessionalList.SearchTermClauses | src/list/list.ts:203-245 | the per-term loop computes `TermClauses` of the terms of the text |
| ProfessionalList.TermConditions | src/list/list.ts:205-243 | the loop body computes `TermClause` |
| ProfessionalList.SpecialtyConditions | src/list/list.ts:325-333 | the loop computes `SpecialtyConds` |
| ProfessionalList.PlaceConditions | src/list/list.ts:264-292 | the place fields compute `PlaceClauses` |
| ProfessionalList.ItemConditions | src/list/list.ts:294-361 | the briefcase and third-party fields compute `ItemClauses` |
| ProfessionalList.AdvancedSearchClauses | src/list/list.ts:247-362 | the advanced fields, pushed one after the other, compute `AdvancedClauses` |
| ProfessionalList.SearchConditions | src/list/list.ts:200-363 | the search block computes `SearchClauses` |
| ProfessionalList.AffiliationConditions | src/list/list.ts:132-149 | the affiliation criteria, set one by one, compute `AffiliationCriteria` |
| ProfessionalList.RecordConditions | src/list/list.ts:151-198 | the record criteria compute `RecordCriteria`, and the early-out flag is never raised |
| ProfessionalList.ApplyStatus | src/list/list.ts:376-422 | the status switch and the `$and` assignment compute `WithStatus` |
| ProfessionalList.BuildListQuery | src/list/list.ts:117-478 | the query built step by step computes `ListQuery`, and the early-out flag is never raised |
| ProfessionalList.MatchingRecords | src/list/list.ts:484-493 | at most as many records as the collection has |
| ProfessionalList.Shown | src/list/list.ts:163-187 | only the affiliations change; the full view shows the record as it is; the filtered view shows `Kept`, where an affiliation appears exactly when it is live and, for a hospital user, of the hospital's own organization |
| ProfessionalList.ShownAll | src/list/list.ts:163-187 | each record shown, in place |
| ProfessionalList.AllWithLicenseStates | src/list/list.ts:498-503 | each record, in place, with its license states |
| ProfessionalList.FillListLicenseStates | src/list/list.ts:495-504 | the loop computes `AllWithLicenseStates` |
| ProfessionalList.ListProfessionals | src/list/list.ts:98-517 | the listing as the source runs it computes `ListOutcome` |
| ListRules.StatusKeepsAffiliationCriteria | src/list/list.ts:376-422 | the status switch keeps the affiliation criteria (but for the suspension test ACTIVE adds) and the clauses already there |
| ListRules.LiveAffiliationRequired | src/list/list.ts:365-368 | with an affiliation criterion, every listed or counted record has a live affiliation meeting it; without one, no affiliation is examined |
| ListRules.HospitalListIsScoped | src/list/list.ts:128-187 | a hospital user's listing ignores the organization asked, lists and counts only records with a live affiliation to its own, and shows only those affiliations |
| ListRules.OtherUsersChooseOrganization | src/list/list.ts:132-134 | any other user lists the organization asked; without one, nothing is scoped and no counts are taken |
| ListRules.UnknownUserRefused | src/list/list.ts:117-124 | no acting user, no listing: `UserNotFound` |
| ListRules.IssuesClauseMeaning | src/list/list.ts:384-398 | the ISSUES clause holds exactly on records not activated, not licensed, suspended, or with a suspended affiliation |
| ListRules.MatchesWithClause | src/list/list.ts:420-422 | one more clause narrows the filter to the records the clause matches |
| ListRules.StatusNarrows | src/list/list.ts:376-418 | every status but ACTIVE narrows a filter without onboarding criteria to the records with that status |
| ListRules.ActiveNarrows | src/list/list.ts:400-405 | ACTIVE replaces the record suspension criterion and asks for an unsuspended affiliation meeting the criteria |
| ListRules.StatusMeaning | src/list/list.ts:370-418 | without a status, what is listed is what is counted; with a status but ACTIVE, the counted records having it |
| ListRules.ActiveMeaning | src/list/list.ts:400-405 | ACTIVE lists active records with a live, unsuspended affiliation meeting the criteria, whatever suspension was asked |
| ListRules.ActiveNeedsAffiliationCriterion | src/list/list.ts:404 | ACTIVE fails with `TypeError` exactly when no affiliation criterion was set |
| ListRules.CountsIgnoreStatus | src/list/list.ts:370-374 | the status changes neither the count filter, the order, the view, the organization nor whether counts are taken |
| ListRules.DirectedOpposite | src/list/list.ts:424-478 | the same fields, once ascending and once descending |
| ListRules.AscendingOrders | src/list/list.ts:425-471 | each order name sorts its keys ascending |
| ListRules.DescendingOrders | src/list/list.ts:428-474 | the same name with a leading `!` sorts the same keys descending |
| ListRules.UnknownOrderNewestFirst | src/list/list.ts:106 | any other order lists by `intId`, newest first |
| ListRules.DistinctExact | src/list/list.ts:237-239 | a candidate is kept exactly when it is one of the candidates |
| ListRules.DistinctUnique | src/list/list.ts:237-239 | no abbreviation is kept twice |
| ListRules.LicenseLike | src/list/list.ts:217-226 | a license text condition holds exactly when one of the record's licenses matches |
| ListRules.LikeAddress | src/list/list.ts:215-216 | an address text condition tests the address, and fails without one |
| ListRules.NameCondsMeaning | src/list/list.ts:212-214 | the name conditions hold exactly when the first name, last name or email starts with the term, ignoring case |
| ListRules.AddressCondsMeaning | src/list/list.ts:215-216 | the address conditions hold exactly when the address line contains the term or the city starts with it, ignoring case |
| ListRules.LicenseCondsMeaning | src/list/list.ts:217-226 | the license conditions hold exactly when some license's number or type equals the term, ignoring case |
| ListRules.NumberCondsMeaning | src/list/list.ts:229-235 | for an integer term, the number conditions hold exactly on the phone, the numeric id or the zip code |
| ListRules.StateCondsMeaning | src/list/list.ts:237-241 | the state conditions hold exactly when the address's state is one of the abbreviations |
| ListRules.TermClauseMeaning | src/list/list.ts:204-243 | a term's `$or` holds exactly where the term finds the record |
| ListRules.TermClausesMeaning | src/list/list.ts:204-244 | the term clauses all hold exactly where every term finds the record |
| ListRules.TextSearchMeaning | src/list/list.ts:200-245 | a text search lists the records in which every term of the text finds something |
| ListRules.IntegerTermsReachNumbers | src/list/list.ts:229-235 | an integer term also looks at the phone number, the numeric id and the zip code; any other term does not |
| ListRules.MatchingExact | src/list/list.ts:484-493 | a record is listed exactly when it is in the collection and the filter matches it |
| ListRules.ListAnswer | src/list/list.ts:484-516 | the count is the number of matching records and the list has them all, in order; counts are returned exactly when asked, and count every unwound row of the records the count filter matches |
| ListRules.ListedRecords | src/list/list.ts:484-504 | each listed record is the matched one, with only its affiliations (as the view shows them) and its briefcase changed; the briefcase gets the license states exactly when the projection names `briefcase.licenses`, and is unchanged otherwise |
| ListRules.HospitalSeesOwnAffiliations | src/list/list.ts:163-187 | a hospital user asking for affiliations sees only the live affiliations of its own organization |

## Behaviour modelled as written

These follow the code, where a reader might expect otherwise:

- The `workStates` default in `updateProfessional` never fires: its guard asks for a list that is both null and of length 0 (src/update/update.ts:305). `ProfileUpdate.WorkStatesNeverDefaulted` states it.
- The `noResults` flag of `listProfessionals` is never raised: the suspension criterion it compares against is never set before the comparison (src/list/list.ts:189-198). `ProfessionalList.RecordConditions` states it.
- A license whose type or body Nursys cannot check, with Nursys enabled, is not suspended (src/update/update.ts:803-836).
- Staging records are deleted inside `updateFiles`, before the record write; superseded objects are deleted after it.
- The ACTIVE status with no affiliation criterion writes into a filter that was never created, so it fails with a `TypeError` (src/list/list.ts:404).
- `getCounts` unwinds rejected affiliations as well: its filter compares only the organization (src/list/list.ts:533-537).
- A read by token with no token at all returns any existing record, scrubbed (src/get/get-by-token.ts:85-95).
- The bulk import's certification pass copies `certifyingBody` from a table loaded with only `profession` and `name` (src/add/add.ts:359), so a listed certification ends up with no certifying body. `ImportValidate.CertifyingBodyOf` states it.
- An external IRP add for the JNP hospital without a session user inserts and audits the new account, then fails with a `TypeError` while building the JNP welcome, which reads the absent session user's name (src/add/add.ts:1527-1539, 1651); no notice and no webhook follow. `AddRules.NewAccountOutcome` and `AddAccount.CreateAccount` state it.
- The same-organization conflict check of `add` ignores `rejectedAt`, and an existing account with a session user has the affiliation attached and still ends in `AddAffiliationRequired`.

## Left out

- The document store's internals: `addAffiliation`, `addBriefcaseItem`, `updateBriefcaseItem`, `deleteBriefcaseItem`, `suspend`, `shareBriefcase` and `update` are effects in the log, not changes to stored records; only `add` changes `Repository.Backend.accounts`.
- `buildSelect`, `buildShareSelect` and the aggregation pipeline's `$project`: the fields a read fetches are not modelled, so records are returned with all their fields.
- The list's sorting, `skip` and `limit`: the order is modelled as the sort keys chosen (`ListRules.AscendingOrders`), and the list as every matching record in collection order.
- `buildByIdClause` is modelled as a match on the record id.
- `populateDownloadUrls`, the URL shortener, the sha256 course token and the contents of notifications and webhook payloads: a notice is its template, its recipient and the query of its link.
- The S3 and SNS calls, and the webhook plumbing in src/webhook and `callWebhook`: each is an effect in the log.
- `Promise.all`: work the source issues concurrently is recorded in the order it is pushed.
- The HTTP handlers, JWT verification and environment variables.
- `sendJobBoardRecruiterEmail` (src/add/add.ts:195-202): its errors are swallowed and it changes no record.
- Password hashing (bcrypt), verification-token generation, ids and the clock: parameters of the operations.
- The `unflatten` library's traversal of a CSV row: a parameter of the bulk loop; field errors and validation errors of a row are assumed to be combined into one list, as `MultipleErrors` is flattened.
- csv-parser streaming: rows are given as a sequence of maps.
- The Nursys call, the regular expressions (email and URL patterns, the Nursys error patterns, the email ignore pattern) and `hasAccess`: oracles passed as parameters. The ignore pattern's `exec` is modelled as a pure test, although a global regular expression keeps state between calls.
- Strings.IsInteger: `isInteger` comes from a shared utilities package that is not part of this model; it is modelled as a non-empty run of ASCII digits, so a signed term such as `-5` or `+5` is treated as text and not also matched against the phone, id and zip fields (`ListRules.IntegerTermsReachNumbers`).
- `Strings.Lower` and `Strings.Upper` change ASCII letters only; JavaScript's case mapping covers all of Unicode.
- The `licenseType` of the first license read by the recruiter notice (src/update/update.ts:1374), which throws on an empty license list: the notice's arguments are not modelled.
- The branding lookups (`isPrn`, facility names): `isPrn` is a parameter.
- `isEmpty(professional.address)` is modelled as the address being present.
- The city, state, department and license-body lookups are sequences and maps given to the operations.
- ProfileUpdate.UpdateProfessional: returns the prepared patch, not the record the store returns after the write.
- ProfileUpdate.FileHooks: the file-uploaded rounds are modelled as one round per updated file, without the per-file payload.
- GetProfessional.Redacted: `isAdminUser`'s extra projection of `affiliations.thirdPartySystems` is not modelled, since projections are left out.
- BriefcaseItems.DeleteItem: the source builds a stub update holding only the item id (src/update/update.ts:959-961), lets `updateFiles` fill its file fields through `buildFileSelect` and `setFileValues` from the stored record, and then reads them with `getPathValues` (src/update/update.ts:1027-1031). The model takes the item's file URL values as already filled in.
- FileAssets.ProcessFiles: one `secs` value stamps every key of a pass, while the source reads the clock once per file (src/update/update.ts:1082). Two files of one request can get different seconds in the source but never in the model, and `FileAssets.KeysOfDifferentSecondsDiffer` and `FileAssets.ReplacementDeletesPrevious` rely on that single value.
- FileAssets.UpdateFiles: the rewritten values are returned, not merged back into the record the store writes.
- LicenseVerification.Verify: the notices carry their template and recipient only, not their arguments.
- ImportValidate.CertifyingBodyOf: `briefcase.certifications` is not among the CSV fields the import configures (src/add/add.ts:520-810), so the certification pass only acts on input the CSV path does not produce; it is modelled for the hook as written.
