# Phonebook contact rules and blog likes totals, in Dafny

This project models two small pieces of a full-stack course repository.

- **The Person schema of the phonebook server** (`phonebook/server/models/person.js`). It holds the write-time rules for a contact. `name` is required, at least 3 characters long and unique in the collection. `number` is required, at least 8 characters long and must match `^(\d{2,3}-)?\d+$`. A number that fails the pattern gets the message `"<value> is not a valid phone number"`. The module also holds the `toJSON` transform, which adds `id` as the string form of `_id` and deletes `_id` and `__v`.
- **The blog-list helpers** (`bloglist/server/utils/list_helper.js`). `dummy` always returns 1. `totalLikes` sums `likes` over a list of blogs, with an early return of 0 for the empty list.

Modules:

- `Wrappers`: `Option` and `Result`.
- `PhonePattern`: the regular expression, read declaratively (`MatchesPattern`), and a matcher written by hand as a deterministic automaton (`Matches`). The two are proved equal on every string.
- `ObjectIds`: `_id` as a number below 2^96. Its `toString()` gives 24 lower-case hexadecimal digits, which read back to the same identifier.
- `PersonSchema`: the field rules of both paths and the number message.
- `PersonJson`: the plain object a document becomes, and the `toJSON` transform. The transform is a method that edits a `PlainObject` in place. It is specified by the pure function `Transformed`.
- `PersonStore`: the collection as `save` sees it. `ContactStore` is a class holding the stored documents. `Save` validates both paths, including the uniqueness count, and then appends. Its object invariant says every stored document passes the field rules, and that names and ids are pairwise distinct.
- `ListHelper`: `Dummy` and `TotalLikes`, with a reference sum and its algebra.

Semantics the source relies on but does not contain come from the document-mapping library and the unique-validator plugin. The model assumes the following:

- A `required` String fails when the value is missing or `""`.
- `required` runs first on a path, then `minlength`, then the path's other validators. Each path reports only its first failing check, and the errors of both paths are collected.
- The uniqueness validator runs last on `name`. It counts the other documents (different `_id`) whose name is exactly equal, so the comparison is case-sensitive.
- `_id` is given to `Save` as a parameter, because the document gets it when it is constructed. An `_id` that is already stored fails with `DuplicateKey`, after validation.
- `__v` is 0 on insert.

A taken name is a validation failure of the `name` path (`NotUnique`); there is no separate duplicate-name error. `person.js` has no update or delete operation.

## Model

| member | source | states |
|---|---|---|
| PhonePattern.MatcherCorrect | phonebook/server/models/person.js:29-31 | the hand-written matcher accepts a string exactly when it is all digits (at least one), or 2 or 3 digits, a hyphen and one or more digits |
| PhonePattern.OnlyOneHyphenAtTwoOrThree | phonebook/server/models/person.js:30 | in an accepted string, every non-digit is a hyphen at index 2 or 3, and it is the only non-digit |
| PersonSchema.NameViolation | phonebook/server/models/person.js:18-23 | a name passes the field checks iff it is present and at least 3 long; missing or empty gives `Required`; 1 or 2 characters gives `TooShort(3)` |
| PersonSchema.NumberPatternOk | phonebook/server/models/person.js:28-31 | the validator returns true exactly for strings of the pattern |
| PersonSchema.NumberViolation | phonebook/server/models/person.js:24-34 | a number passes iff it is present, at least 8 long and of the pattern; missing or empty gives `Required`; 1 to 7 characters gives `TooShort(8)`; at least 8 but off-pattern gives `Invalid` with exactly "`<value>` is not a valid phone number" |
| PersonSchema.StrayCharacterRejected | phonebook/server/models/person.js:24-32 | a number of 8+ characters with a letter, a leading hyphen, or a hyphen anywhere other than index 2 or 3 is rejected with the fixed message |
| PersonSchema.TwoNonDigitsRejected | phonebook/server/models/person.js:30 | a number of any length with two non-digits (two hyphens, for one) is rejected |
| PersonSchema.AreaCodeNumberAccepted | phonebook/server/models/person.js:24-31 | "09-1234567" passes every number check |
| ObjectIds.IdStringRoundTrip | phonebook/server/models/person.js:40 | the string form of `_id` is 24 characters and parses back to the same `_id` |
| ObjectIds.IdStringInjective | phonebook/server/models/person.js:40 | distinct `_id`s get distinct `id` strings |
| PersonJson.Transformed | phonebook/server/models/person.js:38-44 | with `_id` present: `id` is the string of `_id`, `_id` and `__v` are gone, the keys are the old keys minus those two plus `id`, and every other property is unchanged; with `_id` absent the transform fails and changes nothing |
| PersonJson.Transform | phonebook/server/models/person.js:39-43 | editing the object in place leaves exactly `Transformed` of the old properties, or the old properties when `_id` is absent |
| PersonJson.PersonJsonShape | phonebook/server/models/person.js:38-44 | the JSON of a stored person is exactly `{id, name, number}`: `name` and `number` are unchanged, and `id` is the string of `_id` and reads back to it |
| PersonStore.NamePathViolation | phonebook/server/models/person.js:17-37 | the `name` path passes iff the name is present, at least 3 long and no other document has exactly that name; it reports `NotUnique` iff only the uniqueness check fails |
| PersonStore.CountSameNameZero | phonebook/server/models/person.js:37 | the uniqueness count is zero iff no other document has exactly that name |
| PersonStore.AppendKeepsInvariant | phonebook/server/models/person.js:17-37 | appending a document that passes the field rules, with a new name and a new id, keeps every stored document valid and names and ids pairwise distinct |
| PersonStore.ExistingNameRejected | phonebook/server/models/person.js:21 | a name equal to a stored name fails the `name` path, unless the `_id` is the stored document's own, which is then a duplicate key |
| PersonStore.ContactStore.CountOthersNamed | phonebook/server/models/person.js:37 | the loop counts exactly the stored documents with the same name and a different `_id` |
| PersonStore.ContactStore.Save | phonebook/server/models/person.js:17-37 | a failing path gives `ValidationFailed` carrying each path's first failing check, a stored `_id` gives `DuplicateKey`; both leave the store unchanged; otherwise the document with `__v` 0 is appended and returned; a name already stored always fails; the store invariant is kept |
| ListHelper.Dummy | bloglist/server/utils/list_helper.js:1 | returns 1 for every list |
| ListHelper.ReduceLikesIsSum | bloglist/server/utils/list_helper.js:6 | the left-to-right reduce from `acc` equals `acc` plus the sum of the likes |
| ListHelper.GuardAgreesWithReduce | bloglist/server/utils/list_helper.js:3-6 | the empty-list early return agrees with the reduce's initial value 0, so `totalLikes` equals the reduce from 0 for every list; `totalLikes([]) == 0` |
| ListHelper.TotalLikesIsSum | bloglist/server/utils/list_helper.js:2-7 | `totalLikes` is the sum of `likes` over the list |
| ListHelper.TotalLikesSingleton | bloglist/server/utils/list_helper.js:6 | `totalLikes([b]) == b.likes` |
| ListHelper.TotalLikesAppend | bloglist/server/utils/list_helper.js:6 | `totalLikes(a + b) == totalLikes(a) + totalLikes(b)` |
| ListHelper.TotalLikesPermutation | bloglist/server/utils/list_helper.js:6 | lists that are permutations of each other have the same total |

## Left out

- Database connection and logging (`phonebook/server/models/person.js:5-15`): network I/O and environment variables.
- `phonebook/server/mongo.js` is not part of this model. It is a one-off script with no logic to state.
- `bloglist/server/app.js` (middleware and router wiring) and the HTTP routes of the phonebook: framework glue. The blog router is not among the files.
- The database-level unique index on `name` and its race under concurrent inserts. Uniqueness is modelled only as the sequential check inside `Save`.
- ObjectId generation (timestamp, random part, counter): the `_id` is an input of `Save`.
- Casting of non-string values by `type: String`: candidate fields are already strings or absent.
- String lengths are counted in Unicode scalar values. JavaScript counts UTF-16 code units, so the two differ for characters outside the Basic Multilingual Plane.
- ListHelper.TotalLikes: `likes` is an unbounded integer. JavaScript number semantics (floating point, `NaN`, a missing `likes` field) are not modelled.
- A blog is reduced to its `likes` field. The helpers read no other field, and the blog model is not among the files.
- PersonSchema.NameViolation: reports which check failed (`Required`, `TooShort`) and not the library's default message text, which is not in the repository.
- PersonSchema.NumberViolation: for `Required` and `TooShort` it reports the kind of check and not the library's message text. Only the custom validator's message is in the repository, and that one is modelled exactly.
- PersonStore.ContactStore.Save: the summary message the library builds for a validation error is not modelled; the error carries each path's failing check instead.
