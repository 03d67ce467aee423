# A Dafny model of the A2SV Go learning path's services

These Go exercises hold four kinds of logic, and this project models each one.

- **In-memory stores, modelled imperatively.**
  - The library's book/member service, with its borrow/return state machine.
  - The two slice-backed task managers (`task_manager_api`, `task_manager_task_4`, the same code).
  - The album list of `web-service-gin`.
- **Two string exercises.** Word-frequency counting, and in-place rune reversal with the palindrome test.
- **Authentication and authorization.**
  - Role checks on the request context.
  - The two `Authenticate` middlewares.
  - JWT issuance and validation (RFC 7519; the "exp" claim of section 4.1.4; HS256 of section 3.2 of RFC 7518). Signing and parsing are parameters.
- **Mongo-backed repositories and controllers.**
  - The domain records and how their struct tags behave.
  - The task and user repositories of the clean-architecture and clean-testing variants.
  - The task controller and the two user controllers, including task 6's `Register`/`Login`/`GetUsers`/`Promote`.

Shared modules:

- `Wrappers` (Option/Result).
- `Seqs` (first match, splice, filter, count).
- `GoStrings` (unicode.IsSpace, `ToLower` over the case pairs of U+0000-U+017F, the Greek and Coptic, Cyrillic, Cyrillic Supplement and Armenian blocks and the fullwidth Latin letters, `Fields`, `Split`/`Join`, `strconv.Atoi`/`Itoa`, int64 wrap-around).
- `Http` (what a gin handler writes: the first status is kept, later writes only add bodies; a panic is a `Crash`).
- `Bson` (values, documents, equality filters, `$set`, `$slice`).
- `Mongo`: class `Collection`, holding the documents in natural order, with InsertOne, FindOne, Find, CountDocuments, DeleteMany and UpdateOne.

How the model treats the outside world:

- A driver or server error is an explicit `fault` argument. With a fault, the operation fails and changes nothing.
- The clock (`now`, in milliseconds) is an argument, and so are fresh ObjectIDs.
- bcrypt is `hash` / `matches(hash, password)`. The validator's e-mail pattern is `isEmail`, and its error text is `explain`.
- The JWT library is `sign` / `parse`.
- Go map iteration order is an explicit `order` argument.

The behaviour of Go's `reflect.StructTag.Lookup` on the malformed tags of `domain.go` is modelled from the tag text: `json: "firstname"`, with a space after the colon, hides every key of that tag. So the only validation rules that take effect are the e-mail, phone and user-type rules, and the ID is stored under "id" rather than "_id".

Where the model is narrower than the Go code (lower-casing outside the modelled blocks, slice aliasing, calendar arithmetic, escapes in tags), the difference is listed under "## Left out".

## Model

| member | source | states |
|---|---|---|
| LibraryService.Borrow | library_management/services/library_service.go:38-58 | book, then member, then status are checked, with their three errors and no change on error; success marks the book borrowed and appends that copy to the member's list, all else unchanged; succeeds iff the book and member exist and the book is not borrowed |
| LibraryService.Return | library_management/services/library_service.go:60-83 | book then member are checked, with no change on error; success marks the book available whoever holds it and removes the member's first entry with that ID |
| LibraryService.WithoutFirstShape | library_management/services/library_service.go:74-79 | removing the first matching entry keeps the others in order; the length drops by one iff an entry matched; the list is unchanged iff none matched |
| LibraryService.WithoutFirst | library_management/services/library_service.go:74-79 | the list shrinks by at most one, and keeps its length exactly when no entry has the ID |
| LibraryService.WithoutAppended | library_management/services/library_service.go:38-83 | appending a book to a list without its ID and then removing the first entry with that ID gives the list back |
| LibraryService.BorrowThenReturn | library_management/services/library_service.go:38-83 | borrowing then returning to the same member restores the member's list exactly and leaves the book available |
| LibraryService.Library.constructor | library_management/services/library_service.go:23-28 | both maps start empty |
| LibraryService.Library.AddBook | library_management/services/library_service.go:30-32 | inserts or overwrites the book under its ID; members untouched; keeps the ID-keyed invariant |
| LibraryService.Library.RemoveBook | library_management/services/library_service.go:34-36 | deletes the key (no-op when absent); members, and so borrowed copies, untouched |
| LibraryService.Library.BorrowBook | library_management/services/library_service.go:38-58 | the new state and error are exactly `Borrow` of the old state |
| LibraryService.Library.ReturnBook | library_management/services/library_service.go:60-83 | the new state and error are exactly `Return` of the old state; the splice loop's invariant is that no earlier entry matched |
| LibraryService.Library.ListAvailableBooks | library_management/services/library_service.go:85-93 | for any iteration order, the result holds exactly the stored books whose status is "Available", each once |
| LibraryService.Library.ListBorrowedBooks | library_management/services/library_service.go:95-101 | nil iff the member is unknown, otherwise the member's list as stored |
| LibraryService.Library.AddMember | library_management/services/library_service.go:103-105 | inserts or overwrites the member under its ID; books untouched |
| TaskApi.FindTask | task_manager_api/main.go:29-39 | the index of the first task with the ID, or none iff no task has it |
| TaskApi.PatchFields | task_manager_task_4/data/task_service.go:35-45 | the patch keeps ID, DueDate and Status, and replaces Title (Description) iff the incoming one is non-empty |
| TaskApi.Patch | task_manager_task_4/data/task_service.go:35-45 | the patch never changes ID, DueDate or Status |
| TaskApi.UpdateFirstChangesOneTask | task_manager_task_4/data/task_service.go:35-50 | only the first task with the ID changes, only as the patch says; the length is kept; no match means no change |
| TaskApi.UpdateFirst | task_manager_task_4/data/task_service.go:35-50 | the update keeps the length, and with no task with the ID it keeps the slice |
| TaskApi.DeleteFirstRemovesOne | task_manager_task_4/data/task_service.go:54-65 | the delete splices out exactly the first match and keeps the rest in order; the length drops by one iff some task has the ID |
| TaskApi.DeleteFirst | task_manager_task_4/data/task_service.go:54-65 | the delete removes at most one task, and keeps the length exactly when no task has the ID |
| TaskApi.FindAfterAppend | task_manager_task_4/data/task_service.go:14-24 | after an append, a lookup of the new ID finds the earlier task with that ID if there is one, else the appended task |
| TaskApi.TaskList.Seeded | task_manager_api/main.go:19-23 | the three mock tasks, due now, in one day and in two days |
| TaskApi.TaskList.GetTasks | task_manager_api/main.go:25-27 | 200 with the whole slice in order |
| TaskApi.TaskList.GetTasksById | task_manager_api/main.go:29-39 | 200 with the first task with the ID, else 404 "task not found" |
| TaskApi.TaskList.UpdateTask | task_manager_api/main.go:41-65 | bind failure: 400 with the error text, no change; else the first match is patched (200 "task updated ") or 404 "id not found" with no change |
| TaskApi.TaskList.DeleteById | task_manager_api/main.go:67-78 | the first match is spliced out (200) or 404 "ID not found" with no change |
| TaskApi.TaskList.AddTask | task_manager_api/main.go:80-87 | always appends the bound task; after a bind error the 400 is committed and the 201 body follows it |
| Albums.FindAlbum | web-service-gin/main.go:43-52 | the index of the first album with the ID, or none iff no album has it |
| Albums.LookupAfterAdd | web-service-gin/main.go:29-52 | after an add, a duplicate ID still answers with the earlier album, a new ID answers with the added album, and every other ID answers as before |
| Albums.FindAfterAppend | web-service-gin/main.go:29-52 | after an append the first match is the earlier one if any, otherwise the appended album for its own ID, otherwise none |
| Albums.AlbumList.Seeded | web-service-gin/main.go:18-22 | the three seeded albums |
| Albums.AlbumList.GetAlbums | web-service-gin/main.go:25-27 | 200 with every album in order |
| Albums.AlbumList.AddAlbums | web-service-gin/main.go:29-41 | bind failure: bare 400, nothing appended; otherwise appended at the end and echoed with 201 |
| Albums.AlbumList.GetAlbum | web-service-gin/main.go:43-52 | the first album with the ID (200), else 404 "album not found"; 200 iff some album has the ID |
| WordFreq.TallyCounts | Introduction_task2/task2_part1/task2_part1.go:11-13 | the tally's keys are exactly the words, and each value is that word's number of occurrences |
| WordFreq.Words | Introduction_task2/task2_part1/task2_part1.go:10 | the words are non-empty, and written one after another they are the lower-cased text with its white space removed |
| WordFreq.Tally | Introduction_task2/task2_part1/task2_part1.go:11-13 | every count the loop leaves lies between 1 and the number of words |
| WordFreq.FreqCounter | Introduction_task2/task2_part1/task2_part1.go:8-15 | the counting loop builds exactly that tally over the fields of the lower-cased text (each count ≥ 1) |
| WordFreq.KeysAreLowerWords | Introduction_task2/task2_part1/task2_part1.go:10-12 | every key is non-empty and holds no white space and no upper-case letter (of the blocks LowerRune covers) |
| WordFreq.FieldsFromText | Introduction_task2/task2_part1/task2_part1.go:10 | every rune of every word comes from the text |
| WordFreq.EveryRuneCounted | Introduction_task2/task2_part1/task2_part1.go:10-13 | every non-space rune of the text, lower-cased, lies in some counted word |
| WordFreq.CountsSumToWords | Introduction_task2/task2_part1/task2_part1.go:11-14 | in any map order, the counts add up to the number of words |
| WordFreq.BlankTextIsEmpty | Introduction_task2/task2_part1/task2_part1.go:9-10 | a text of white space only, or the empty text, gives the empty map |
| WordFreq.ExampleWords | Introduction_task2/task2_part1/task2_part1.go:18 | "Hello world hello" has the words hello, world, hello |
| WordFreq.ExampleText | Introduction_task2/task2_part1/task2_part1.go:18-19 | "Hello world hello" counts {hello: 2, world: 1} |
| Palindrome.Reverse | Introduction_task2/task2_part2/task2_part2.go:8-14 | the reference reversal keeps the length |
| Palindrome.ReverseAt | Introduction_task2/task2_part2/task2_part2.go:8-14 | rune k of the reversal is rune n-1-k of the input |
| Palindrome.ReverseReverse | Introduction_task2/task2_part2/task2_part2.go:8-14 | reversing twice gives the string back |
| Palindrome.ReverseString | Introduction_task2/task2_part2/task2_part2.go:8-14 | the two-index swap loop over a rune array yields exactly the reversal; its invariant says the runes outside [i, j] are already swapped and the middle untouched |
| Palindrome.PalindromeMirror | Introduction_task2/task2_part2/task2_part2.go:21 | equality with the reversal is the same as rune k equalling rune n-1-k for all k |
| Palindrome.Normalize | Introduction_task2/task2_part2/task2_part2.go:18-20 | the compared string holds no space and, with multiplicity, every other rune of the lower-cased input |
| Palindrome.IsPalindrome | Introduction_task2/task2_part2/task2_part2.go:16-22 | true iff the lower-cased, space-stripped string equals its reversal, that is, reads the same both ways |
| Palindrome.NormalizeIgnoresSpaces | Introduction_task2/task2_part2/task2_part2.go:20 | inserting a space anywhere never changes the answer |
| Palindrome.NormalizeIgnoresCase | Introduction_task2/task2_part2/task2_part2.go:18 | lower-casing first never changes the answer |
| Palindrome.OtherSpacesKept | Introduction_task2/task2_part2/task2_part2.go:20 | only ' ' is removed: a tab or other white space stays in the compared string |
| Palindrome.PanamaIs | Introduction_task2/task2_part2/task2_part2.go:25 | "A man a plan a canal Panama" is a palindrome |
| Palindrome.HelloIsNot | Introduction_task2/task2_part2/task2_part2.go:26 | "hello" is not |
| Palindrome.EmptyIs | Introduction_task2/task2_part2/task2_part2.go:16-22 | the empty string is |
| Palindrome.UmlautIs | Introduction_task2/task2_part2/task2_part2.go:16-22 | case is folded beyond ASCII: "Ää" is a palindrome |
| Palindrome.GheIs | Introduction_task2/task2_part2/task2_part2.go:16-22 | Cyrillic Supplement case pairs are folded: "Ґґ" (U+0490, U+0491) is a palindrome |
| Palindrome.ThetaIs | Introduction_task2/task2_part2/task2_part2.go:16-22 | Greek and Coptic letters outside the basic Greek range are folded: "ϴθ" (U+03F4, U+03B8) is a palindrome |
| GoStrings.LowerRune | Introduction_task2/task2_part1/task2_part1.go:10 | ASCII upper-case letters map 32 down; an upper-case letter of the modelled blocks (ASCII, Latin-1 Supplement, Latin Extended-A, Greek and Coptic, Cyrillic, Cyrillic Supplement, Armenian, fullwidth Latin) maps to a rune that is neither upper-case nor white space; every other rune, white space included, maps to itself |
| GoStrings.IsSpace | Introduction_task2/task2_part1/task2_part1.go:10 | unicode.IsSpace: tab, newline, vertical tab, form feed, carriage return, space, U+0085, U+00A0, U+1680, U+2000-U+200A, U+2028, U+2029, U+202F, U+205F, U+3000 |
| GoStrings.IsUpper | Introduction_task2/task2_part1/task2_part1.go:10 | the runes unicode.ToLower changes, over the modelled blocks |
| GoStrings.ToLower | Introduction_task2/task2_part1/task2_part1.go:10 | rune-wise LowerRune, same length |
| GoStrings.RemoveRune | Introduction_task2/task2_part2/task2_part2.go:20 | every occurrence of the rune is gone and every other rune is kept, with multiplicity |
| GoStrings.WordLen | Introduction_task2/task2_part1/task2_part1.go:10 | the length of the maximal leading run of non-space runes |
| GoStrings.Fields | Introduction_task2/task2_part1/task2_part1.go:10 | every field is non-empty and contains no white space |
| GoStrings.FieldsCover | Introduction_task2/task2_part1/task2_part1.go:10 | the fields written one after another are the string without its white space: nothing else is lost or added |
| GoStrings.FieldsMaximal | Introduction_task2/task2_part1/task2_part1.go:10 | each field occurs in the string as a maximal run, bordered by white space or an end |
| GoStrings.FieldsHoldEveryRune | Introduction_task2/task2_part1/task2_part1.go:10 | every non-space rune of the string lies in some field |
| GoStrings.UnspacedPrefix | Introduction_task2/task2_part1/task2_part1.go:10 | removing white space from a space-free prefix keeps that prefix |
| GoStrings.RunShift | Introduction_task2/task2_part1/task2_part1.go:10 | a maximal run of a suffix that starts after white space is a maximal run of the whole string |
| GoStrings.InConcat | Introduction_task2/task2_part1/task2_part1.go:10 | a rune of concatenated pieces lies in one of the pieces |
| GoStrings.InUnspaced | Introduction_task2/task2_part1/task2_part1.go:10 | removing white space keeps every other rune |
| GoStrings.FieldsOfBlank | Introduction_task2/task2_part1/task2_part1.go:10 | a blank string has no fields |
| GoStrings.Split | task_manger_clean_testing/delivery/middleware/middleware.go:22 | one more piece than there are separators, no piece containing the separator |
| GoStrings.JoinSplit | task_manger_clean_testing/delivery/middleware/middleware.go:22 | joining the pieces gives the header back |
| GoStrings.SplitAtOnlySeparator | task_manger_clean_testing/delivery/middleware/middleware.go:22-24 | with exactly one separator the pieces are the text before and after it |
| GoStrings.NoSeparatorSplit | task_manger_clean_testing/delivery/middleware/middleware.go:22 | a string without the separator is one piece |
| GoStrings.ScanDigits | task_manger_clean_architecture/delivery/controllers/user_controller.go:107 | strconv's digit loop never yields a value past 2^64-1 |
| GoStrings.ScanDigitsValue | task_manger_clean_architecture/delivery/controllers/user_controller.go:107 | over digits the loop yields the number they denote (most significant first) after the accumulator, or a range error exactly when that number exceeds 2^64-1 |
| GoStrings.ScanNonDigit | task_manger_clean_architecture/delivery/controllers/user_controller.go:107 | a rune that is not a digit keeps the loop from yielding a value |
| GoStrings.Atoi | task_manger_clean_architecture/delivery/controllers/user_controller.go:107 | the result lies in int64; on error it is 0 or an int64 bound; success needs a non-empty input |
| GoStrings.Unsigned | task_manger_clean_architecture/delivery/controllers/user_controller.go:107 | the text after the optional sign, no longer than the input |
| GoStrings.AtoiValue | task_manger_clean_architecture/delivery/controllers/user_controller.go:107 | only a sign, or nothing: (0, error); a non-digit: an error; digits: their value, negated after "-", clamped to the int64 bound with an error outside int64, otherwise exact with no error |
| GoStrings.DecimalValueSnoc | task_manger_clean_architecture/delivery/controllers/user_controller.go:107 | one more digit multiplies the value by ten and adds the digit |
| GoStrings.DigitsOfValue | task_manger_clean_architecture/delivery/controllers/user_controller.go:107 | the decimal digits of n are non-empty and denote n |
| GoStrings.AtoiItoa | task_manger_clean_architecture/delivery/controllers/user_controller.go:107 | Atoi reads back every int64 Itoa writes with no error, also after a leading "+" |
| GoStrings.WrapInt64 | task_manger_clean_architecture/delivery/controllers/user_controller.go:117 | two's-complement 64-bit wrap: in range, congruent mod 2^64, identity on int64 values |
| Seqs.FirstWhere | task_manager_api/main.go:31-36 | the first index satisfying the test, with no earlier one; none iff no element satisfies it |
| Seqs.RemoveAt | task_manager_api/main.go:71 | `append(s[:i], s[i+1:]...)` drops exactly position i and keeps the others in order (a multiset identity too) |
| Seqs.RemoveFirstCount | task_manager_api/main.go:69-74 | removing the first match drops the match count by exactly one |
| Seqs.FilterComplementCount | task_manger_clean_architecture/repositories/task_repository.go:44-55 | the kept elements plus the matched count give the length |
| Seqs.Filter | task_manger_clean_architecture/repositories/task_repository.go:48 | keeps only elements that pass, and every element that passes |
| Seqs.CountWhere | task_manager_with_auth_task_6/controllers/user_controller.go:60-66 | a count of matches is at most the length, and 0 iff nothing matches |
| Http.QueryGet | task_manger_clean_architecture/delivery/controllers/user_controller.go:107-112 | the definition of c.Query: a parameter present reads as its value, a missing one as ""; also task_manager_with_auth_task_6/controllers/user_controller.go:137-146 |
| Http.Then | task_manager_api/main.go:82-86 | the definition of a second write: the first status stays and the body is appended |
| Http.Json | task_manager_api/main.go:26 | the definition of a first write: that status with that one body |
| Auth.GetString | task_manger_clean_architecture/infrastructure/auth_helper.go:10 | the definition of c.GetString: the stored string, or "" when the key is absent |
| Auth.CheckUserType | task_manger_clean_architecture/infrastructure/auth_helper.go:9-18 | nil iff the context's usertype equals the role, else "unauthorized to access" |
| Auth.MatchUserTypeToUid | task_manger_clean_architecture/infrastructure/auth_helper.go:20-32 | an error iff usertype is lower-case "user" and the uid differs from the one asked for; the error is "unauthorized access" |
| Auth.AbsentUserTypeFails | task_manger_clean_architecture/infrastructure/auth_helper.go:10-14 | with no usertype stored, every non-empty role is refused |
| Auth.UpperCaseRolesAlwaysMatch | task_manger_clean_architecture/infrastructure/auth_helper.go:24-31 | "ADMIN" and "USER" identities always pass, whoever they ask for |
| Auth.OwnUidMatches | task_manger_clean_architecture/infrastructure/auth_helper.go:24 | asking for one's own uid passes |
| Tokens.AccessClaims | task_manger_clean_architecture/infrastructure/token_helper.go:26-35 | the definition of the access claims: the five identity fields, expiring at now + 86400 s |
| Tokens.RefreshClaims | task_manger_clean_architecture/infrastructure/token_helper.go:36-40 | the definition of the refresh claims: no identity fields, expiring at now + 604800 s |
| Tokens.GenerateAllTokens | task_manger_clean_architecture/infrastructure/token_helper.go:25-50 | panics iff a pointer argument is nil (a nil dereference) or the refresh signing fails (the first signing error is overwritten; `log.Panic()` panics with ""); otherwise both tokens are the signed claims |
| Tokens.ValidateToken | task_manger_clean_architecture/infrastructure/token_helper.go:54-77 | no token, or foreign claims with no error: a nil dereference; foreign claims: nil claims with the error text; own claims: returned, msg "token has expired " when exp < now (strictly), else the parse error text or "" |
| Tokens.AcceptedIffCleanAndUnexpired | task_manger_clean_architecture/infrastructure/token_helper.go:54-77 | msg is empty iff the claims parsed, there was no parse error, and now ≤ exp (when the library's errors carry text) |
| Tokens.AccessTokenLifetime | task_manger_clean_architecture/infrastructure/token_helper.go:25-77 | an issued access token is accepted with the caller's identity from issue to 24 h later inclusive, and reported expired after |
| Tokens.RefreshTokenIsAnonymous | task_manager_with_auth_task_6/helpers/token_helper.go:43-47 | an accepted refresh token carries an empty user type and uid |
| Middleware.CheckToken | task_manger_clean_testing/delivery/middleware/middleware.go:31-37 | accept iff the validator returns empty msg, with its claims; reject with msg iff msg is non-empty |
| Middleware.HeaderGet | task_manger_clean_testing/delivery/middleware/middleware.go:14 | Header.Get: a missing header reads as "" |
| Middleware.BearerDecision | task_manger_clean_testing/delivery/middleware/middleware.go:14-37 | empty header: "not Authorized"; anything but two space-separated pieces: "invalid token format"; else the second piece is validated |
| Middleware.RawTokenDecision | task_manager_with_auth_task_6/middleware/auth_middleware.go:11-23 | empty "token" header: "not Authorized"; otherwise the raw value is validated |
| Middleware.WithIdentity | task_manger_clean_testing/delivery/middleware/middleware.go:39-43 | exactly the five identity keys are set from the claims; every other key is kept |
| Middleware.Context.constructor | task_manger_clean_testing/delivery/middleware/middleware.go:12-13 | a request starts with no keys, not aborted, with nothing written |
| Middleware.EmptyHeaderSkipsValidation | task_manger_clean_testing/delivery/middleware/middleware.go:14-19 | an empty header gets the same refusal whatever the validator would say |
| Middleware.SchemeIsIgnored | task_manger_clean_testing/delivery/middleware/middleware.go:22-24 | any one-word scheme ("Token x" as well as "Bearer x") passes its token on |
| Middleware.TwoSpacesRefused | task_manger_clean_testing/delivery/middleware/middleware.go:22-29 | two spaces anywhere give "invalid token format" |
| Middleware.Context.Apply | task_manger_clean_testing/delivery/middleware/middleware.go:26-43 | a rejection answers 500 with its field and aborts with keys unchanged; an acceptance sets the identity |
| Middleware.Context.Authenticate | task_manger_clean_testing/delivery/middleware/middleware.go:12-45 | the context after the middleware is what the Authorization-header decision says |
| Middleware.Context.AuthenticateToken | task_manager_with_auth_task_6/middleware/auth_middleware.go:9-31 | the same for the "token" header |
| Middleware.AcceptedIdentityFeedsRoleCheck | task_manger_clean_testing/delivery/middleware/middleware.go:39-43 | after acceptance CheckUserType passes exactly for the token's user type |
| Domain.KeyLen | task_manger_clean_architecture/domain/domain.go:12 | the tag key scanned by StructTag.Lookup: runes above space other than ':', '"' and DEL |
| Domain.CloseQuote | task_manger_clean_architecture/domain/domain.go:12-22 | the scan ends at a quote, or at the end when none is left; a value without quotes and backslashes scans to the end; no unescaped quote is skipped |
| Domain.Lookup | task_manger_clean_architecture/domain/domain.go:11-22 | StructTag.Lookup: a value found holds no quote and no backslash (values with escapes are not decoded, see Left out) |
| Domain.LookupOnePair | task_manger_clean_architecture/domain/domain.go:15-22 | a single well-formed pair `key:"value"` yields the value for its key and nothing for any other key |
| Domain.OnePairScan | task_manger_clean_architecture/domain/domain.go:15-22 | how Lookup scans such a pair: key to the colon, value to the closing quote, nothing after |
| Domain.CloseQuoteSkips | task_manger_clean_architecture/domain/domain.go:15-22 | the scan passes runes that are neither quotes nor backslashes up to the next quote |
| Domain.KeyLenStops | task_manger_clean_architecture/domain/domain.go:15 | a well-formed key followed by ':' is scanned up to that colon |
| Domain.DropSpaces | task_manger_clean_architecture/domain/domain.go:12-18 | the leading spaces Lookup skips before each key: a suffix of the tag not starting with a space |
| Domain.SpaceAfterColonHidesAll | task_manger_clean_architecture/domain/domain.go:12-14 | StructTag.Lookup over the raw tag text: a tag whose first key is followed by ": " yields nothing for any key |
| Domain.NameAndPasswordRulesHidden | task_manger_clean_architecture/domain/domain.go:12-14 | the FirstName, LastName and Password tags yield no json and no validate rule |
| Domain.IdKeyHidden | task_manger_clean_architecture/domain/domain.go:11 | the ID's bson key "_id" is not seen |
| Domain.NamesAndPasswordUnchecked | task_manger_clean_architecture/domain/domain.go:12-18 | a valid user stays valid with no names and no password |
| Domain.Valid | task_manger_clean_architecture/domain/domain.go:15-18 | validate.Struct with the surviving rules: e-mail present and e-mail shaped, phone present, user type present and ADMIN or USER |
| Domain.EncodeUser | task_manger_clean_architecture/domain/domain.go:10-23 | the stored document has the twelve lower-cased field names, the ID under "id" |
| Domain.Ptr | task_manger_clean_architecture/domain/domain.go:12-19 | a pointer field is stored as null exactly when it is nil |
| Domain.NoMongoId | task_manger_clean_architecture/domain/domain.go:11 | an encoded user never has "_id", so the driver adds one |
| Domain.DecodePtr | task_manger_clean_architecture/domain/domain.go:12-19 | decoding a pointer field fails when the key holds something other than null or a string (the driver's conversions from other kinds are left out) |
| Domain.DecodeStr | task_manger_clean_architecture/domain/domain.go:22 | decoding a string field fails when the key holds something other than null or a string (the driver's conversions from other kinds are left out) |
| Domain.DecodeTime | task_manger_clean_architecture/domain/domain.go:20-21 | decoding a time fails when the key holds something other than null, a date or an int64 (the driver's conversions from other kinds are left out) |
| Domain.DecodeObjectId | task_manger_clean_architecture/domain/domain.go:11 | decoding the ID fails when the key holds something other than null or an ObjectID (the driver's conversions from other kinds are left out) |
| Domain.DecodeUser | task_manger_clean_architecture/domain/domain.go:10-23 | a decoded user's e-mail and userid are the document's string fields, or nil/"" when absent |
| Domain.PtrRoundTrip | task_manger_clean_architecture/domain/domain.go:12-19 | a stored string pointer, or null for nil, reads back as the same pointer |
| Domain.UserRoundTrip | task_manger_clean_architecture/domain/domain.go:10-23 | decoding a stored user, with any extra keys such as "_id", gives the user back |
| Domain.DecodeStored | task_manger_clean_architecture/domain/domain.go:10-23 | any document holding every user field under its lower-cased key decodes to that user |
| Domain.DecodeUserInto | task_manager_with_auth_task_6/controllers/user_controller.go:122 | Decode(&foundUser): it fails exactly when decoding into a zero User fails, with the same error; on success the result keeps the base user's field for every key the document lacks and takes the decoded field for every key it holds |
| Domain.DecodeIntoZero | task_manager_with_auth_task_6/controllers/user_controller.go:122 | decoding into the zero User is the plain struct decoding |
| Domain.SparseDocumentKeepsFields | task_manager_with_auth_task_6/controllers/user_controller.go:121-122 | a document holding only userid, updatedat and keys no user field uses, decoded into a user, changes only those two fields |
| Domain.UpsertedDocumentKeepsFields | task_manager_with_auth_task_6/controllers/user_controller.go:121-122 | the document UpdateAllTokens upserts (userid, updatedat, _id) decoded into the found user changes only its updatedAt |
| Domain.EncodeTask | task_manger_clean_architecture/domain/domain.go:26-32 | the stored task has keys id, title, description, status, duedate |
| Domain.DecodeTask | task_manger_clean_architecture/domain/domain.go:26-32 | a decoded task's ID is the "id" string |
| Domain.TaskRoundTrip | task_manger_clean_architecture/domain/domain.go:26-32 | decoding a stored task, with extra keys, gives the task back |
| Bson.SetFields | task_manger_clean_architecture/repositories/task_repository.go:105-112 | `$set`: the listed fields take the new values, all others are kept |
| Bson.Matches | task_manger_clean_architecture/repositories/user_repository.go:47 | an equality filter on one key: a null value also matches a missing key; no array-contains or cross-numeric-type matching |
| Bson.SliceStart | task_manger_clean_architecture/repositories/user_repository.go:68 | a non-negative position is clamped to the length; a negative one counts from the end, clamped at 0 |
| Bson.Slice | task_manger_clean_architecture/repositories/user_repository.go:68 | an error iff the position or count is outside 32 bits or the count is not positive; otherwise the window at SliceStart |
| Bson.SliceIsWindow | task_manger_clean_architecture/repositories/user_repository.go:68 | from a non-negative position: the items stored there, at most n of them, empty past the end |
| Bson.NegativeSliceTakesTail | task_manger_clean_architecture/repositories/user_repository.go:68 | position -k with count k gives the last k items |
| Bson.TruncateToSecond | task_manger_clean_architecture/repositories/user_repository.go:24 | the RFC 3339 round trip drops the fraction of a second |
| Mongo.WithObjectId | task_manger_clean_architecture/repositories/user_repository.go:138 | the inserted document gains "_id" (a fresh ID if it had none) and keeps every field |
| Mongo.Collection.constructor | task_manger_clean_architecture/repositories/task_repository.go:18-23 | a collection starts empty |
| Mongo.FirstMatch | task_manger_clean_architecture/repositories/user_repository.go:47 | the first document matching the equality filter, or none iff none matches |
| Mongo.Unmatched | task_manger_clean_architecture/repositories/task_repository.go:48 | what DeleteMany keeps: no match survives; the kept count plus the matched count is the length |
| Mongo.Collection.InsertOne | task_manger_clean_architecture/repositories/user_repository.go:138 | appends the document with its "_id" and returns that "_id"; a fault changes nothing |
| Mongo.Collection.FindOne | task_manger_clean_architecture/repositories/user_repository.go:47 | a stored matching document; "no documents" iff nothing matches |
| Mongo.Collection.FindAll | task_manger_clean_architecture/repositories/task_repository.go:61 | every document in natural order |
| Mongo.Collection.CountDocuments | task_manager_with_auth_task_6/controllers/user_controller.go:60-66 | a count between 0 and the size, 0 iff nothing matches |
| Mongo.Collection.DeleteMany | task_manger_clean_architecture/repositories/task_repository.go:48-54 | removes every match, keeps the rest in order, reports how many went |
| Mongo.Collection.UpdateOne | task_manger_clean_architecture/repositories/user_repository.go:30 | the collection becomes `Updated` and the counts are `Counts` of the old one |
| Mongo.Updated | task_manger_clean_architecture/repositories/user_repository.go:30 | the collection after UpdateOne: one longer exactly when an upsert found no match, and every document but the first match kept |
| Mongo.Counts | task_manger_clean_architecture/repositories/user_repository.go:30 | matched is 0 or 1 and modified at most matched; upserted only when asked for and nothing matched |
| Mongo.UpdateCounts | task_manger_clean_architecture/repositories/user_repository.go:113-124 | matched is 1 iff some document matches; modified is 1 iff the `$set` changes the first match; with no match and no upsert nothing changes; an upsert appends the filter's key and the fields |
| Mongo.DeleteCount | task_manger_clean_architecture/repositories/task_repository.go:48-54 | DeleteMany's count is the number of matches, and 0 iff none matched |
| TaskRepository.TaskFields | task_manger_clean_architecture/repositories/task_repository.go:105-112 | the `$set` covers title, description, status and duedate, not the ID |
| TaskRepository.TaskRepository.constructor | task_manger_clean_architecture/repositories/task_repository.go:18-23 | the repository works on the given collection |
| TaskRepository.UpdatedTaskDecodes | task_manger_clean_architecture/repositories/task_repository.go:101-120 | an updated stored task reads back with the new title, description, status and due date and its old ID |
| TaskRepository.UpdateTaskEffect | task_manger_clean_architecture/repositories/task_repository.go:101-120 | no match: no change; a match: only the first document with the ID changes |
| TaskRepository.TaskRepository.AddTask | task_manger_clean_architecture/repositories/task_repository.go:26-41 | appends the five fields without looking for the ID; the store error otherwise |
| TaskRepository.TaskRepository.DeleteById | task_manger_clean_architecture/repositories/task_repository.go:44-55 | removes every task with the ID and returns how many had it (0 if none) |
| TaskRepository.TaskRepository.GetTasks | task_manger_clean_architecture/repositories/task_repository.go:58-81 | every stored task decoded in order; one undecodable document fails the call with "error decoding task data"; a find error is "error fetching tasks from database" |
| TaskRepository.TaskRepository.GetTasksById | task_manger_clean_architecture/repositories/task_repository.go:84-97 | the first task with the ID; no such task is (nil, nil), not an error |
| TaskRepository.TaskRepository.UpdateTask | task_manger_clean_architecture/repositories/task_repository.go:101-120 | `$set` on the first task with the ID; an unknown ID changes nothing and is no error |
| TaskRepository.AddThenFind | task_manger_clean_testing/repositories/task_repository_test.go:159-170 | after adding a task with an unused ID, looking it up returns the task |
| TaskController.RoleRefusal | task_manger_clean_testing/delivery/controllers/task_controller.go:68-71 | no refusal iff usertype is "ADMIN"; otherwise 400 with the role error |
| TaskController.GetTasks | task_manger_clean_testing/delivery/controllers/task_controller.go:18-35 | 200 with the tasks iff the use case succeeded, else 500 "Failed to retrieve tasks" |
| TaskController.GetTasksById | task_manger_clean_testing/delivery/controllers/task_controller.go:37-64 | ErrNoDocuments: 400; other errors: 500; otherwise 200 with the task or null |
| TaskController.UpdateTask | task_manger_clean_testing/delivery/controllers/task_controller.go:66-105 | role gate, then 400 "Failed to bind request data", then 500 on a use-case error, else 200 "Task updated successfully" |
| TaskController.DeleteById | task_manger_clean_testing/delivery/controllers/task_controller.go:108-145 | role gate, 500 on error, 404 "Task not found" for a zero count, else 200 "Task deleted successfully" |
| TaskController.AddTask | task_manger_clean_testing/delivery/controllers/task_controller.go:147-185 | role gate, bind 400, use-case 500, else 200 "Task added successfully" with the task |
| TaskController.UseCaseSkippedUnlessAdmitted | task_manger_clean_testing/delivery/controllers/task_controller.go:68-83 | for a refused caller or unbound body the answer does not depend on the use case |
| TaskController.MissingTaskIsNull | task_manger_clean_testing/delivery/controllers/task_controller.go:45-62 | through the repository, a missing ID is answered 200 with null |
| TaskController.DeleteAnswersByCount | task_manger_clean_testing/delivery/controllers/task_controller.go:121-143 | through the repository, 404 iff no stored task has the ID, else 200 |
| ArchUsers.UsersPage | task_manger_clean_architecture/repositories/user_repository.go:58-72 | an empty collection has no group row; otherwise the row holds the total count and the `$slice` window, or the slice error |
| ArchUsers.GetUser | task_manger_clean_architecture/repositories/user_repository.go:44-52 | the zero User with the error, or the decoded first user with the userid; fault passes through; "no documents" iff none has it; a decode failure gives the zero User and that error |
| ArchUsers.Login | task_manger_clean_architecture/repositories/user_repository.go:90-103 | no match: "user not found"; other errors pass through; success is the decoded first match |
| ArchUsers.GetUsers | task_manger_clean_architecture/repositories/user_repository.go:55-87 | no rows: "no users found"; the slice error or fault passes through; a row decodes as one zero User |
| ArchUsers.UpdateAllTokens | task_manger_clean_architecture/repositories/user_repository.go:21-34 | upserts by userid setting only updatedat (whole seconds); the tokens are not written |
| ArchUsers.PromoteFields | task_manger_clean_architecture/repositories/user_repository.go:111 | the `$set` covers usertype and updatedat |
| ArchUsers.Promote | task_manger_clean_architecture/repositories/user_repository.go:106-127 | store error wrapped; no match: "user not found"; unmodified: "user type was already T"; else nil |
| ArchUsers.PromoteModifies | task_manger_clean_architecture/repositories/user_repository.go:111-124 | a matched user counts as modified iff it does not already hold the type and that updatedat |
| ArchUsers.Signup | task_manger_clean_architecture/repositories/user_repository.go:130-144 | stores the user with new stamps, a fresh ID and UserId = its hex, whatever was supplied; returns the inserted "_id"; errors wrapped as "user item was not created: …" |
| ArchUsers.SignedUp | task_manger_clean_architecture/repositories/user_repository.go:132-135 | the user as stored: ID and UserId the new ID, both stamps now, every other field as supplied |
| ArchUsers.StoredSignup | task_manger_clean_architecture/repositories/user_repository.go:130-144 | the document Signup inserts holds the stamped user and decodes to it |
| ArchUsers.FoundLast | task_manger_clean_architecture/repositories/user_repository.go:44-52 | a user stored last, whose userid no earlier document has, is what GetUser returns |
| ArchUsers.SignupThenGetUser | task_manger_clean_architecture/repositories/user_repository.go:130-144 | after Signup, GetUser by the new UserId returns the stamped user |
| ArchUsers.FindUser | task_manger_clean_architecture/repositories/user_repository.go:44-52 | FindOne with a one-key filter decoded into a zero User: the zero User with the error; fault passes through; "no documents" iff no document has the key's value; a match decodes to the user, or the zero User with the decode error |
| TestingUsers.GetUserByEmail | task_manger_clean_testing/repositories/user_repository.go:39-47 | the zero User with the error, or the decoded first user with the e-mail; fault passes through; "no documents" iff none has it; a decode failure gives the zero User and that error |
| TestingUsers.ManualDecode | task_manger_clean_testing/repositories/user_repository.go:101-138 | each field is copied only when present with the expected type; otherwise zero or nil |
| TestingUsers.ListedUserLosesTimes | task_manger_clean_testing/repositories/user_repository.go:130-135 | a stored user lists with the "_id" as its ID and zero times, since the dates are not int64 |
| TestingUsers.ListUsers | task_manger_clean_testing/repositories/user_repository.go:81-143 | no row: "no users found"; user_items not an array: "unexpected result format"; any non-document item: "unexpected user item format"; else every item decoded in order |
| TestingUsers.GetUsers | task_manger_clean_testing/repositories/user_repository.go:49-144 | the users at startIndex..startIndex+recordsPerPage-1 in stored order; past the end of a non-empty collection, an empty list; aggregation and cursor errors wrapped |
| TestingUsers.Promote | task_manger_clean_testing/repositories/user_repository.go:168-183 | (nil, matched, modified) from the update; (error, 0, 0) only on a store error |
| TestingUsers.TokenFields | task_manger_clean_testing/repositories/user_repository.go:206-210 | the `$set` covers updatedat, token and refreshtoken |
| TestingUsers.UpdateAllTokens | task_manger_clean_testing/repositories/user_repository.go:204-219 | upserts by userid setting exactly those three fields |
| TestingUsers.UpsertedTokens | task_manger_clean_testing/repositories/user_repository.go:204-219 | an unknown userid gets a new document with the userid, the three fields and a fresh "_id" |
| ArchUserController.Prepared | task_manger_clean_architecture/delivery/controllers/user_controller.go:38-45 | hashed password, whole-second stamps, fresh ID with UserId its hex |
| ArchUserController.Signup | task_manger_clean_architecture/delivery/controllers/user_controller.go:21-57 | bind or validation failure: 400 with nothing stored; nil password: panic; insert failure: 500; else 200 with the inserted id; no uniqueness check |
| ArchUserController.HandlerStampsOverwritten | task_manger_clean_architecture/delivery/controllers/user_controller.go:42-45 | the handler's ID, UserId and stamps are replaced by the repository's |
| ArchUserController.LoginStepOf | task_manger_clean_architecture/delivery/controllers/user_controller.go:64-87 | bind 400; nil e-mail panics; lookup failure 500 "email or password not found"; a nil password on either side panics; mismatch 500 "password or email not found"; a found user without e-mail 500 "user not found"; otherwise it proceeds with the found user, whose hash matches |
| ArchUserController.Login | task_manger_clean_architecture/delivery/controllers/user_controller.go:59-95 | tokens and UpdateAllTokens run only after both checks; the answer is the user as found |
| ArchUserController.RecordsPerPage | task_manger_clean_architecture/delivery/controllers/user_controller.go:107-110 | the parsed parameter if it parses and is ≥ 1, else 10 (task 6's GetUsers, task_manager_with_auth_task_6/controllers/user_controller.go:137-140, is the same code and uses this function) |
| ArchUserController.Page | task_manger_clean_architecture/delivery/controllers/user_controller.go:112-115 | the parsed parameter if it parses and is ≥ 1, else 1 |
| ArchUserController.StartIndexAsWritten | task_manger_clean_architecture/delivery/controllers/user_controller.go:117 | the Go int product, wrapped to 64 bits |
| ArchUserController.StartIndex | task_manger_clean_architecture/delivery/controllers/user_controller.go:117 | (page-1)*recordsPerPage: non-negative and a multiple of recordsPerPage |
| ArchUserController.StartIndexWraps | task_manger_clean_architecture/delivery/controllers/user_controller.go:117 | page 2^60 with 16 a page gives -16 as written |
| ArchUserController.StartIndexAgrees | task_manger_clean_architecture/delivery/controllers/user_controller.go:117 | when the product fits in int64 the two agree |
| ArchUserController.WrappedPageListsTail | task_manger_clean_architecture/delivery/controllers/user_controller.go:117-119 | the wrapped offset lists the last 16 users |
| ArchUserController.GetUsers | task_manger_clean_architecture/delivery/controllers/user_controller.go:97-127 | 400 for non-ADMIN before any parameter; the repository is asked with the offset as written (the wrapped 64-bit product); its error: 500 "error occurred while listing user items"; else 200 with the users |
| ArchUserController.DefaultListingIsZeroUser | task_manger_clean_architecture/delivery/controllers/user_controller.go:97-127 | an ADMIN's default listing of a non-empty collection is one zero User |
| ArchUserController.HugePageAnswered | task_manger_clean_architecture/delivery/controllers/user_controller.go:107-126 | page 2^60 with 16 a page is answered 200 from the wrapped offset -16 rather than with an empty page |
| ArchUserController.GetUser | task_manger_clean_architecture/delivery/controllers/user_controller.go:129-148 | uid check 400, then the repository's user (200) or error (500) |
| ArchUserController.Promote | task_manger_clean_architecture/delivery/controllers/user_controller.go:150-174 | 403 unless usertype is exactly "ADMIN", store unchanged; any repository error, "already" included, is 500; else 200; the store afterwards is the old one with the `$set` of usertype and updatedat applied to the first match (unchanged on a store fault) |
| AuthUserController.VerifyPassword | task_manager_with_auth_task_6/controllers/user_controller.go:34-43 | (true, "") iff the second argument is a hash of the first, else (false, "password or email not found") |
| AuthUserController.UpdateAllTokens | task_manager_with_auth_task_6/helpers/token_helper.go:60-75 | upserts by userid setting only updatedat; tokens not written; an error panics |
| AuthUserController.Registered | task_manager_with_auth_task_6/controllers/user_controller.go:77-83 | hashed password, whole-second stamps, ID and UserId, and the two new tokens |
| AuthUserController.RegisterStepOf | task_manager_with_auth_task_6/controllers/user_controller.go:45-83 | bind or validation 400; nil password, count errors and token panics crash; only a stored phone refuses with 400 "email or phone number already exists" |
| AuthUserController.Register | task_manager_with_auth_task_6/controllers/user_controller.go:45-93 | on refusal nothing is stored; otherwise one insert of the registered user: 500 "user Item was not created " or 200 with the id |
| AuthUserController.DuplicateEmailAccepted | task_manager_with_auth_task_6/controllers/user_controller.go:60-76 | a stored e-mail with a new phone is not refused |
| AuthUserController.FindByEmail | task_manager_with_auth_task_6/controllers/user_controller.go:104 | a fault passes through; no match: "no documents"; otherwise the struct decoding of the first user matching the e-mail filter (nil is the null filter) |
| AuthUserController.LoginStepOf | task_manager_with_auth_task_6/controllers/user_controller.go:95-119 | bind 400; lookup failure 500; a nil password panics; mismatch 500 "password or email not found"; found user without e-mail 500 "user not found"; else proceeds |
| AuthUserController.Reread | task_manager_with_auth_task_6/controllers/user_controller.go:122-126 | the re-read decodes into the user first found: a fault, or no user with the userid, gives 500 with the error followed by the found user unchanged; a match that decodes gives 200 with the found user overlaid by the document's keys (absent keys keep the found user's fields); a decode error gives 500 with that error followed by the partly overwritten user |
| AuthUserController.RereadUpserted | task_manager_with_auth_task_6/controllers/user_controller.go:121-126 | when the re-read finds the document UpdateAllTokens upserted (userid, updatedat, _id only), the answer is 200 with the found user, only its updatedAt changed |
| AuthUserController.Login | task_manager_with_auth_task_6/controllers/user_controller.go:95-128 | after the checks: tokens, then UpdateAllTokens (only updatedat), then the re-read into the found user |
| AuthUserController.NilEmailLogin | task_manager_with_auth_task_6/controllers/user_controller.go:104-119 | a body without e-mail can reach the stored user without e-mail and gets 500 "user not found" |
| AuthUserController.StartIndex | task_manager_with_auth_task_6/controllers/user_controller.go:145-149 | the offset used is an int64, 0 when "startIndex" is missing |
| AuthUserController.StartIndexRead | task_manager_with_auth_task_6/controllers/user_controller.go:145-149 | any int64 written in decimal as "startIndex" is the offset used, negative ones included; the page computation is overwritten |
| AuthUserController.GetUsers | task_manager_with_auth_task_6/controllers/user_controller.go:130-174 | 400 for non-ADMIN; aggregation failure: nil-cursor panic; read failure: fatal; empty collection: index panic; else 200 with the row |
| AuthUserController.PageIgnored | task_manager_with_auth_task_6/controllers/user_controller.go:141-146 | the "page" parameter never changes the answer |
| AuthUserController.DefaultListing | task_manager_with_auth_task_6/controllers/user_controller.go:130-174 | with no parameters an ADMIN gets the count and the first ten users |
| AuthUserController.GetUser | task_manager_with_auth_task_6/controllers/user_controller.go:176-193 | uid check 400; a fault 500 with it; missing userid 500 with "no documents"; a match that decodes 200 with it, one that does not 500 with the decode error |
| AuthUserController.Promote | task_manager_with_auth_task_6/controllers/user_controller.go:195-232 | 403 unless "ADMIN"; store error 500; no match 404 "User not found"; unmodified 200 "User type was already ADMIN"; else 200 "User promoted to admin successfully" |

## Left out

- `introduction_task1.go`: an interactive stdin loop over float64 marks.
- The library's stdin/stdout menu: it only parses integers and calls the service.
- The use-case layers wrap one repository call in a context deadline. `user_usecase.go`'s GetUsers also re-wraps a repository error as "failed to retrieve users: …", which no answer shows: the controller replies 500 with a fixed message. The task controller therefore takes the use case's result as an argument, and the clean-architecture user controller calls the repository model directly.
- Mains, routers and database connection files: wiring, environment and network.
- `task_manager_with_database_task_5`: its data layer is unfinished, so it has no contract to model.
- `go_jwt_project`: its helpers are not part of this model.
- bcrypt, and the signing and parsing of HS256 tokens: uninterpreted parameters. `HashPassword`'s panic on a bcrypt error is not modelled; `hash` is total.
- The clean-architecture `infrastructure.HashPassword`/`VerifyPassword` are not part of this model. Login takes them to behave like task 6's versions.
- Task 6's `models.User` and its helpers' `CheckUserType`/`MatchUserTypeToUid` are not part of this model. They are taken to equal `domain.User` and the clean-architecture role checks.
- BSON encoding beyond documents of strings, integers, dates, ObjectIDs, null, arrays and sub-documents.
- Domain.DecodePtr, Domain.DecodeStr, Domain.DecodeTime, Domain.DecodeObjectId, Bson.Matches: the driver's decoding conversions are left out, so these state a stricter decoder and matcher than the program uses. Not modelled: an ObjectID decoded as its hex text into a string or *string; a string in the RFC 3339 layout or a Timestamp decoded into a time.Time; a 24-digit hex or 12-byte string decoded into an ObjectID; an equality filter matching an array that contains the value; numbers matching across numeric types. DecodeUser, DecodeTask and DecodeUserInto inherit these limits. No document the program writes holds such values.
- Middleware.HeaderGet: the header map is keyed by the name the handler asks for; Header.Get's canonicalisation of the name (so a header sent in any case is found) is taken to have been applied already.
- Cursors, and driver errors other than "no documents": each is a `fault` argument.
- The clean-architecture GetUsers aggregates on the database, not on a collection. A real server refuses such a pipeline. The model runs it over the collection, and the refusal is the `fault` argument.
- `modified`: Mongo's counts are modelled as "the `$set` changes the first matching document". Promote's `updatedat` is the exact `now`, so a second promotion at the same millisecond is "already".
- Timeouts, contexts and concurrency: every operation is sequential.
- JSON binding and the validator's message text are the arguments `Bound` and `explain`. `fmt.Println` and log output are not modelled.
- `log.Fatal`, which exits the process, is modelled as a `Crash` of the handler.
- web-service-gin's `Price` is a float64, kept as an uninterpreted real because it is only stored and echoed.
- Go map iteration order is an argument; ListAvailableBooks is proved for every order.
- Times are milliseconds since the epoch. Go's nanosecond part is not modelled.
- Middleware.Context.Authenticate: on a validator panic only the response is stated, not the context keys.
- TaskRepository.TaskRepository.GetTasks: a cursor error is stated only as some error, because the driver's error text is not modelled.
- ArchUsers.Login: the lookup result is decoded with the struct decoder, whose failure on mistyped fields is an error; the contract states the whole decoding result.
- LowerRune: unicode.ToLower is modelled for every upper-case letter of U+0000-U+017F (ASCII, Latin-1 Supplement, Latin Extended-A) and of U+0370-U+058F (Greek and Coptic, Cyrillic, Cyrillic Supplement, Armenian), and for the fullwidth Latin letters U+FF21-U+FF3A; upper-case letters of other blocks (Latin Extended-B, Latin Extended Additional, Greek Extended, Georgian, Cherokee, Glagolitic, Deseret and others) and the special cases of unicode.SpecialCase map to themselves in the model, because the full Unicode case table is not part of this model.
- ToLower: lower-cases only as far as LowerRune does, for the same reason.
- FreqCounter: two words that differ only by case in a block outside LowerRune's are counted apart in the model and together in Go.
- KeysAreLowerWords: "no upper-case letter" means none of the blocks LowerRune covers.
- IsPalindrome: a string whose case differs only outside LowerRune's blocks is judged case-sensitively in the model.
- Domain.Lookup: a tag value containing a backslash is treated as not found, where Go's strconv.Unquote would decode the escape; and a value containing a newline or another control character is returned, where strconv.Unquote rejects it and Lookup reports nothing; no tag in `domain.go` contains either.
- Domain.DecodeUserInto: on a failed decode the fields are overwritten in struct order up to the failing one, and the error is that of the first failing field in struct order; the driver walks the document in its own key order. The two agree for documents written by EncodeUser, whose keys follow the struct.
- LibraryService.Library.ListBorrowedBooks returns `member.BorrowedBooks` itself, so a caller shares the member's backing array, and ReturnBook's `append(bs[:i], bs[i+1:]...)` rewrites that array in place. The model returns and stores values, so it does not capture that aliasing.
- TaskApi.TaskList.Seeded: due dates are now + 1 and now + 2 times 86,400,000 ms, where Go's `time.Now().AddDate(0, 0, n)` adds calendar days in local time (different across a daylight-saving change) and reads the clock three times.
- AuthUserController.GetUsers: after a failed aggregation the 500 body is written before the nil-cursor panic; the model's `Crash` carries no bodies, so that written body is not kept.

## Findings

| source | as written | input that shows it | evidently intended | confidence | as-written member | corrected member |
|---|---|---|---|---|---|---|
| task_manger_clean_architecture/delivery/controllers/user_controller.go:117 | `int64((page - 1) * recordsPerPage)` multiplies in 64-bit Go `int`, which wraps around | page = 1152921504606846976 (2^60), recordPerPage = 16: the offset wraps to -16, which `$slice` reads as "the last 16 users" (lemmas StartIndexWraps and WrappedPageListsTail) | a non-negative offset that is a whole number of pages; for this input the corrected offset 2^64-16 itself exceeds int64 and int32, so `$slice` refuses it and the handler answers with the aggregation error instead of the last 16 users | not executed | ArchUserController.StartIndexAsWritten | ArchUserController.StartIndex |

The handler ArchUserController.GetUsers follows the code as written and uses StartIndexAsWritten (lemma HugePageAnswered shows the wrapped page being answered). The corrected StartIndex is proved non-negative and a whole number of pages, and StartIndexAgrees shows the two agree whenever the product fits in 64 bits.
