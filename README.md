# Port Russell — a Dafny model of the marina back end

Port Russell is an Express/Mongoose application for a marina. It manages:

- **catways** (pontoons), each with a unique number, a type and a state;
- **reservations** of a catway by a client's boat over a date range;
- **user accounts**, whose login hands out a JWT;
- the **`checkJWT` gate**, which lets a request through only with such a token.

This project models the decision rules and table updates of the request
handlers and proves the properties those handlers promise:

- bookings on one catway never overlap;
- every refused request leaves its collection as it was;
- no stored password is ever handed back by a read;
- the token source is chosen in a fixed priority order;
- a token handed out by login opens the gate.

Each MongoDB collection becomes a field of a class:

| collection | field |
|---|---|
| reservations | a map from document id to document (`Reservations.ReservationTable`) |
| catways | a sequence in store order (`Catways.CatwayTable`) |
| users | a sequence in store order (`Users.UserStore`) |

A handler that changes its collection becomes a method that updates that field. A handler that only reads
becomes a function, except `CatwayTable.List` and `UserStore.GetAllUsers`, which are methods because the
source builds their answer in a loop. The `add` controller is the function `Users.AddReply`, applied to the
result of `UserStore.CreateUser`. A handler that
calls `next(err)` answers `Js.Reply.Crash`, because the application's error handler then sends a 500.

The three foreign libraries are parameters of the operations that use them:

- date parsing: `parse: string -> Option<Instant>`, where `None` stands for an invalid `Date`;
- `jwt.verify`: `verify: string -> Option<Payload>`;
- `jwt.sign`: `sign: Identity -> Option<string>`, where `None` stands for a throw.

bcrypt is the datatype `Users.Digest` together with `Users.Matches`. The clock is a parameter (`today`, `now`).

Modules:

- `Js`: JavaScript values as the handlers see them (missing, `null` or a value), truthiness, `trim`, `toLowerCase`, `startsWith`, and the shapes of an Express reply.
- `ReservationModel`, `CatwayModel`: the two Mongoose schemas with their setters, validators and pre-save hook.
- `Reservations`: the reservation routes, the overlap query and the disjointness invariant.
- `Catways`: the catway routes, including the listing loop that tags each catway with its active reservation.
- `Gate`: the token middleware.
- `Users`: the user service.
- `UserController`: the login controller.

## Model

| member | source | states |
|---|---|---|
| Js.Trim | middlewares/private.js:7 | the result is `s` cut at both ends, and only spaces are cut; it is empty exactly when `s` is all spaces; a non-empty result has no space at either end |
| Js.ToLower | middlewares/private.js:6 | same length, and every character is folded to lower case |
| Js.ToLowerIdempotent | services/userService.js:34 | lower-casing an address a second time changes nothing |
| ReservationModel.SaveCheck | models/reservationModel.js:5-17 | a save is accepted iff both names are non-empty and `endDate >= startDate`; the pre-save hook's error comes up exactly when the names pass and `endDate < startDate` |
| ReservationModel.Make | models/reservationModel.js:6-7 | the document the schema builds: the number and dates as given, each name cut only of spaces at its ends down to its trimmed content (no edge space left), empty exactly when it was all spaces |
| ReservationModel.BlankNameRefused | models/reservationModel.js:6-7 | a name made of spaces is trimmed to empty, and the required validator then refuses the document |
| Reservations.MeetsIffShareInstant | routes/reservationRoutes.js:7-13 | for non-empty ranges, the overlap query holds iff the two closed ranges share an instant, that is iff max(starts) <= min(ends); touching endpoints count |
| Reservations.Overlapping | routes/reservationRoutes.js:6-19 | `hasOverlap`: some stored reservation on the catway, other than the excluded id, has `startDate <= end` and `endDate >= start` (its meaning is stated by `MeetsIffShareInstant` and `ExcludedNeverCounts`) |
| Reservations.ExcludedNeverCounts | routes/reservationRoutes.js:14-16 | the query with `excludeId` equals the query without it over the table minus that reservation |
| Reservations.InsertKeepsDisjoint | routes/reservationRoutes.js:73-86 | adding a reservation that meets none of its catway keeps every catway's bookings pairwise disjoint |
| Reservations.ReplaceKeepsDisjoint | routes/reservationRoutes.js:116-127 | replacing a reservation by one that meets no other of its catway keeps the table disjoint |
| Reservations.ValidateCreate | routes/reservationRoutes.js:54-70 | accepted iff the URL names a catway, the four fields are truthy and both dates parse with start < end; otherwise 400 with the message of the first failing guard; on success the document has the URL catway, the parsed dates and the trimmed names |
| Reservations.PatchedRange | routes/reservationRoutes.js:108-114 | a falsy body date keeps the stored one and a truthy one is parsed; the result exists iff both dates are valid and in strict order |
| Reservations.Patched | routes/reservationRoutes.js:122-125 | the document PUT saves: same catway, the checked dates, a truthy body name replacing the stored one by that name cut only of its edge spaces, a falsy one keeping it |
| Reservations.ZeroLengthRefusedByRouteOnly | routes/reservationRoutes.js:64-70 | a booking that starts and ends at the same instant is refused by POST with 400, although the document built from the same body passes the schema whenever its trimmed names are non-empty |
| Reservations.ReservationTable.List | routes/reservationRoutes.js:22-33 | exactly the stored reservations, or those of the URL catway, unchanged |
| Reservations.ReservationTable.Get | routes/reservationRoutes.js:36-49 | the document iff the id exists and, when the URL names a catway, is booked on it; otherwise 404 "not found" or 404 "not linked" |
| Reservations.ReservationTable.Create | routes/reservationRoutes.js:52-90 | each 400 of the validation, 409 on an overlap, 500 when the schema refuses, else 201 with exactly one new fresh-id document; the table stays disjoint and any refusal leaves it unchanged |
| Reservations.ReservationTable.Update | routes/reservationRoutes.js:93-132 | 404 (unknown or not linked), 400 (range), 409 (overlap on its own stored catway, itself excluded), 500 (schema) with no change; on success only that document changes: same catway, truthy names trimmed, dates parsed or kept; the table stays disjoint |
| Reservations.ReservationTable.Delete | routes/reservationRoutes.js:135-143 | 204 and exactly that id removed, whatever the URL catway; 404 and no change when absent |
| CatwayModel.Build | models/catwayModel.js:3-25 | created iff the number is present, the type is present and its lower-cased, trimmed form is "long" or "short"; the stored type is that form and the state is trimmed; a type that normalises to empty fails as required |
| CatwayModel.NormalizeType | models/catwayModel.js:13-14 | the stored type is the lower-cased input cut only of spaces at its ends, with no edge space left and no upper-case letter; empty exactly when the input is all spaces |
| CatwayModel.TrimKeepsLower | models/catwayModel.js:13-14 | trimming after lower-casing keeps the text free of upper-case letters |
| CatwayModel.NormalizeState | models/catwayModel.js:21-24 | `null` and a missing state are kept; a given state is stored as the input cut only of spaces at its ends, with no edge space left |
| CatwayModel.PaddedUpperCaseAccepted | models/catwayModel.js:10-18 | `" LONG "` with state `" free "` is stored as `"long"` and `"free"` |
| CatwayModel.UnknownTypeRefused | models/catwayModel.js:15-18 | any type whose normal form is non-empty and outside the enum is refused by the enum validator |
| Catways.ActiveAt | routes/catwayRoutes.js:14-17 | a reservation is in the result iff it is stored and `startDate <= today <= endDate` |
| Catways.ActiveAtSnoc | routes/catwayRoutes.js:14-17 | the query keeps store order: one more stored reservation is appended to the result when active, and adds nothing otherwise |
| Catways.LastOn | routes/catwayRoutes.js:19-22 | null iff no reservation of the sequence is on the catway; otherwise the last one on it |
| Catways.LastOnPrefix | routes/catwayRoutes.js:20-22 | one more step of the overwriting `forEach`: the next reservation becomes the entry of its own catway and leaves the others as they were |
| Catways.IndexOf | routes/catwayRoutes.js:39 | the first catway with that number, or none iff no catway has it |
| Catways.CurrentIsActive | routes/catwayRoutes.js:14-26 | the listed current reservation is stored, active and on that catway; it is null iff the catway has no active reservation |
| Catways.CurrentIsUnique | routes/catwayRoutes.js:19-26 | while bookings are disjoint, any active booking of a catway is the one the listing reports, so last-write-wins never has to choose |
| Catways.CatwayTable.List | routes/catwayRoutes.js:8-33 | every catway in store order with its own fields, each tagged with the last active reservation of its number: the map built by the overwriting loop |
| Catways.CatwayTable.Get | routes/catwayRoutes.js:36-45 | a stored catway with that number iff one exists, else 404 |
| Catways.CatwayTable.Create | routes/catwayRoutes.js:48-63 | 400 when the number is null or missing or the type falsy (0 is accepted); 409 when the number exists; 500 when the schema refuses; else 201 and exactly the built catway appended; numbers stay unique |
| Catways.CatwayTable.UpdateState | routes/catwayRoutes.js:66-83 | 400 when the state is undefined, 404 when there is no such catway; else only that catway's state changes, to the trimmed value |
| Catways.CatwayTable.Delete | routes/catwayRoutes.js:86-95 | 204 and exactly that catway is removed, and no catway with that number remains; 404 and no change otherwise |
| Gate.ExtractToken | middlewares/private.js:4-16 | a bearer header (any case) gives its trimmed rest, even when empty; else a truthy `x-access-token`; else a truthy cookie; null iff none applies |
| Gate.AuthText | middlewares/private.js:5 | a falsy Authorization header reads as the empty string |
| Gate.IsBearer | middlewares/private.js:6 | the header, lower-cased, starts with `bearer ` |
| Gate.IsApiRequest | middlewares/private.js:18-22 | the request is an API request iff its original URL starts with `/api/` |
| Gate.PrincipalOf | middlewares/private.js:45 | `req.user` is the payload's `user` claim when present, else the whole payload |
| Gate.Decide | middlewares/private.js:33-54 | passes iff there is a non-empty token that verifies, as `decoded.user` or else `decoded`; a missing or empty token gives 401 `token_required` or the missing-token redirect, and an invalid one gives 401 `token_not_valid` or the invalid-token redirect, depending on the `/api/` prefix |
| Gate.CheckJwt | middlewares/private.js:24-55 | answers `Decide` and sets `req.user` only when it lets the request through |
| Gate.NonBearerIgnored | middlewares/private.js:6-15 | an Authorization header that is not a bearer header has no effect on the token |
| Gate.BearerExcludesOthers | middlewares/private.js:5-8 | with a bearer header, the other two sources are never consulted |
| Gate.SchemeCaseInsensitive | middlewares/private.js:6 | `BeArEr ` is recognised as the bearer scheme |
| Gate.BearerRoundTrip | middlewares/private.js:6-7 | `"Bearer " + t` yields `t` back when `t` has no surrounding spaces |
| Users.Sanitize | services/userService.js:9-13 | a truthy password is removed, and every other field is kept as it was; a missing or falsy password leaves the object unchanged |
| Users.ToObject | services/userService.js:10 | the stored object has exactly the keys `_id`, `username`, `email`, `password`, plus `last_login` once set, each with the stored value |
| Users.Matches | models/userModel.js:19-21 | `comparePassword`: the candidate matches the digest computed from it |
| Users.PublicHasNoPassword | services/userService.js:9-13 | a sanitized account has no password and is the stored object minus that key |
| Users.FindFirst | services/userService.js:104 | `findById` and `findOne({ email })`: the first document in store order the query selects, or none iff it selects none |
| Users.RemoveKeepsWellFormed | models/userModel.js:6 | removing one account keeps ids and addresses unique, and leaves none with its id or address |
| Users.FoundByAnyCasing | services/userService.js:101-111 | every stored account is found by its address in any casing, because stored addresses are lower-case and unique |
| Users.PatchFields | services/userService.js:63-65 | throws iff the address or the password is `null`; otherwise id and `last_login` kept, each `undefined` field kept, a given username assigned (`null` stored as null), a given address assigned lower-cased, a given password re-hashed so that it matches; a lower-case address stays lower-case |
| Users.UpdateFields | services/userService.js:122-124 | id and `last_login` kept, each falsy field kept, a truthy username assigned, a truthy address assigned lower-cased, a truthy password hashed so that it matches |
| Users.AddReply | services/userService.js:80-88 | 201 with the created view, the thrown status and message, or 500 for an error without a status |
| Users.UserStore.CreateUser | services/userService.js:16-39 | 400 when a field is falsy; 409 when the lower-cased address or the username is taken; else exactly one account appended, with a fresh id, the lower-cased address and the hashed password, and its view returned without the password; failures change nothing |
| Users.UserStore.GetAllUsers | services/userService.js:42-48 | one view per account in store order, each the stored object without its password |
| Users.UserStore.GetUserById | services/userService.js:51-56 | null iff no account has the id, else that account without its password |
| Users.UserStore.GetByEmail | services/userService.js:101-111 | 200 iff an account has the lower-cased address, with that account minus its password; else 404 |
| Users.UserStore.PatchUser | services/userService.js:59-69 | null for an unknown id; a throw on a null address or password, or on an address another account has; else that account alone gets each field that is not `undefined`, with the address lower-cased and the password re-hashed |
| Users.UserStore.DeleteUser | services/userService.js:72-76 | null for an unknown id; else exactly that account removed and returned as stored, password included |
| Users.UserStore.Update | services/userService.js:114-132 | 404 when no account has the lower-cased address; 500 when the new address belongs to another account; else only the truthy fields assigned (address lower-cased, password hashed) and the view returned |
| Users.UserStore.Delete | services/userService.js:135-144 | 204 and exactly the account with the lower-cased address removed, with no account left at that address; 404 and no change otherwise |
| Users.UserStore.Authenticate | services/userService.js:147-170 | 400 on a missing field, 404 on an unknown address, 403 exactly when the found account's password does not match; when it matches, 200 with the token signed for that account, sent as `Bearer <token>` and in the body, or 500 when signing throws |
| Users.UserStore.RecordLogin | controllers/userController.js:22-23 | only that account's `last_login` changes, to now |
| UserController.Login | controllers/userController.js:6-30 | 400 `missing_credentials`; the same 401 `invalid_credentials` for an unknown address and a wrong password; 500 `server_error` when signing throws; else `last_login` stamped and token, name and address returned; every failure leaves the store unchanged |
| UserController.IssuedTokenOpensGate | controllers/userController.js:16-25 | a signed token sent back as `Bearer <token>` lets the request through as the identity it was signed for, whatever the other sources hold |
| UserController.AuthenticateHeaderOpensGate | services/userService.js:158-166 | the Authorization header that `authenticate` sets opens the gate as the account that signed in |

## Left out

- MongoDB I/O, `_id` generation and casting, and timestamps: each collection is a map or sequence, and ids are naturals allocated fresh. An id that is not a valid ObjectId (a `CastError` that the app answers with 500) is not modelled. The version key `__v` that `toObject()` and `lean()` add to every returned object is not modelled either.
- Non-numeric URL segments: `Number(...)` gives `NaN` for them, and integers cannot represent it. A catway in the URL is an integer, and for the reservation routes it is optional.
- Catway numbers that are not integers, such as `1.5` in a body or in the URL: catway numbers are Dafny integers.
- Body values of a JSON type other than the one each handler expects, such as a number where a string is expected, or an object.
- Date parsing is the `parse` oracle. Instants are integers, and `toLocaleDateString` is not modelled.
- Js.ToLower: folds ASCII letters only, unlike `toLowerCase`, which folds all of Unicode.
- jsonwebtoken is left out (signature, secret and `expiresIn: '1d'`). `verify` and `sign` are oracles, and tokens are opaque strings.
- bcrypt internals, and the cost factor 10. A digest is compared only through `Matches`.
- Users.Matches: a candidate matches exactly the password it was computed from; bcrypt compares only the first 72 bytes, so two long passwords sharing those bytes match in the application and not in the model.
- The pre-save hash of models/userModel.js:12-16 runs only when the password field was modified. The model re-hashes whenever a password is assigned, even one equal to the stored digest.
- Concurrency, such as the race between the overlap check and the insert of two simultaneous bookings. Calls are sequential.
- Rendering, static files, logging (`console.log`), app.js wiring and its 404 handler. Of app.js only the 500 answer of the error handler is kept, as `Crash`.
- routes/userRoutes.js: the `/me` and `/logout` routes are not part of this model. `list` only wraps `GetAllUsers` in `res.json`.
- seed.js: a batch load from files and environment variables, so process I/O only.
- Reservations.ReservationTable.List: returns the matching documents as a map, so the order the store sends them in is not modelled.
- Catways.CatwayTable.List: reads the reservations collection as its own parameter `found`, a sequence in store order, because `Reservations.ReservationTable` holds a map, which has no order. Nothing ties `found` to that table. `Catways.CurrentIsUnique` only asks that every element of `found` be a stored reservation of a disjoint table.
- UserController.Login: the 500 answer is modelled for a throwing `jwt.sign`. A failing `save()` of `last_login` cannot fail validation here, and an I/O failure of it is not modelled.

## Notes on the code

- `deleteUser` (services/userService.js:72-76) returns the deleted document as stored, password digest included. Every other read, and `createUser`, strips the password. `Users.UserStore.DeleteUser` follows the code.
- Neither `patchUser` nor `update` checks beforehand that a new address is free. The unique index on `email` (models/userModel.js:6) makes the save throw. The model answers such a save as the code does: a thrown error for `patchUser`, and 500 for `update`.
- The reservation pre-save hook accepts a zero-length booking. Only the route's strict check refuses it (`Reservations.ZeroLengthRefusedByRouteOnly`).
- A name made only of spaces passes the route's truthiness check. The schema then trims it to empty, the save fails, and the client gets a 500 rather than a 400 (`ReservationModel.BlankNameRefused`).
