# Taskio core, modelled in Dafny

Taskio is a marketplace where *seekers* book services that *taskios* (providers)
publish. This project models the parts of its Next.js/mongoose code that make
decisions:

- the booking engine: the `GET` and `POST` handlers of `/api/bookings`, and the
  Booking schema;
- the authorization guard: the token helpers of `src/lib/auth.ts`, the
  `/api/protected` middleware and the `/api/auth/verify` route;
- the service catalog: the provider's `/api/services` handlers, the public
  `/api/services/public` browse, and the Service schema;
- accounts: sign-up, sign-in, the profile name update, and the User schema;
- the media relay: the `/api/user/upload-image` route and the client hook
  `useImageUpload`;
- the provider dashboard: the `/api/dashboard/stats` aggregation;
- the client helpers:
  - the session reducer of `AuthContext`;
  - the list updaters of `ServiceForm`;
  - the price, tag and statistics helpers of the service-list page;
  - the checks of the sign-in/sign-up page;
  - the bookings dashboard page.

Each source file has its own module. Two more modules hold shared code:
`Common` has `Option`, the HTTP `Reply`, JavaScript truthiness, filters and
counts, and the newest-first sort. `Text` has JavaScript's `trim`, ASCII
lower-casing, substring search and decimal rendering.

The MongoDB collections are sequences held by the class `Database.Store`. The
handlers that write to the database are methods on it:

- `BookingsRoute.PostBooking`;
- `ServicesRoute.PostService`;
- `SignupRoute.Signup`;
- `ProfileRoute.PatchProfile`;
- `UploadImageRoute.UploadImage`.

Each of these is proved against a pure decision function, and each keeps the
store's schema invariant `Store.Valid`. The stateful client code is modelled as
classes:

- `BookingDashboard.BookingsPanel` for the bookings page's state;
- `ImageUploadHook.ImageUploader` for the hook's `isUploading` and
  `uploadProgress`;
- `AuthPage.AuthPageState` for the auth page's forms and messages.

An asynchronous handler is split at its `await`:

- `Begin` and `Finish` in the hook;
- `BeginUpdate` and `FinishUpdate` on the bookings page.

The server's answer is a parameter of the second half.

Cryptography, the image host, ObjectId parsing, the clock and number rendering
are parameters of the functions that use them. They are:

- `jwtVerify`, `sign`, `hash` and `compare`;
- `host`;
- `isObjectId`;
- `isDate`, whether mongoose can cast a text to a `Date`;
- `now`;
- `show`.

Some behaviours of the code worth knowing before reading the model:

- Sign-up answers 201 with the user and no token.
- The bookings dashboard page offers only pending → {confirmed, cancelled},
  confirmed → in-progress and in-progress → completed. These are the only
  status moves the model states.
- The Service schema (`src/models/Service.ts`) has no `serviceImage` path. Yet
  the upload route writes that field, and the booking and public routes read it.
  The model keeps it as a field of `Service` (`Option<string>`) that the schema
  cast leaves empty, so the upload route behaves as written (see "Left out").
- The dashboard statistics route has no role check: any authenticated user gets
  figures keyed on their own id.
- An image upload for a service that is missing or not the caller's gives 404.
- The MIME list also admits `image/jpg`.
- The public search is a regular expression built from the user's text. It is
  modelled as a case-insensitive substring match (see "Left out").

## Model

| member | source | states |
|---|---|---|
| Common.FirstMissing | src/app/api/bookings/route.ts:166-173 | the field loop finds nothing missing iff every listed field is truthy; when it reports a field, that is the first falsy one in list order |
| Common.Filter | src/app/api/bookings/route.ts:113 | the result holds exactly the elements satisfying the predicate and is no longer than the input |
| Common.FilterConcat | src/app/dashboard/bookings/page.tsx:128-130 | filtering a concatenation is the concatenation of the filtered parts, so survivors keep their order |
| Common.FilterAll | src/components/ServiceForm.tsx:151 | a filter that every element passes returns the list unchanged |
| Common.CountSplit | src/app/dashboard/service-list/page.tsx:420-437 | the elements passing a predicate and those failing it add up to the length |
| Common.Take | src/app/api/dashboard/stats/route.ts:87 | `limit(n)` keeps the first min(n, length) elements, as a prefix |
| Common.SortNewestFirst | src/app/api/bookings/route.ts:59 | `sort({ createdAt: -1 })` gives a newest-first permutation of its input (same multiset) |
| Common.InsertSorted | src/app/api/bookings/route.ts:59 | inserting into a newest-first list keeps it newest first |
| Common.InsertPermutes | src/app/api/bookings/route.ts:59 | one insertion step adds exactly the new element to the multiset |
| Common.SortKeepsElements | src/app/api/services/route.ts:40 | sorting neither adds nor drops an element |
| Text.Trim | src/models/User.ts:19 | `trim()` leaves no leading or trailing whitespace and never lengthens |
| Text.TrimInfix | src/models/User.ts:19 | the trimmed text is a slice of the input with only whitespace around it |
| Text.TrimIdempotent | src/models/Booking.ts:67 | trimming twice is trimming once |
| Text.TrimFixesTrimmed | src/models/Booking.ts:67 | a value with no surrounding whitespace is unchanged by `trim` |
| Text.TrimEmptyIffBlank | src/app/api/user/profile/route.ts:27 | `trim()` is empty exactly when the text is all whitespace |
| Text.ToLower | src/models/User.ts:26 | `toLowerCase()` keeps the length, lowers each character, and its result is lower case |
| Text.ToLowerIdempotent | src/app/api/auth/signup/route.ts:35 | lower-casing twice is lower-casing once |
| Text.ToLowerTrimmed | src/models/User.ts:26-27 | lower-casing a trimmed text keeps it trimmed |
| Text.ContainsIgnoreCaseOfLower | src/app/api/services/public/route.ts:27-29 | an `i`-flag search gives the same answer for a query and its lower-cased form |
| Text.Capitalize | src/app/dashboard/service-list/page.tsx:161 | `charAt(0).toUpperCase() + slice(1)`: same length, first letter upper-cased, the rest unchanged |
| Text.NatToString | src/app/api/dashboard/stats/route.ts:141 | a whole number renders as at least one decimal digit, with no leading zero from 10 up |
| Text.NatToStringRoundTrip | src/app/dashboard/service-list/page.tsx:154-156 | reading the rendered digits back gives the number |
| Auth.GeneratePayload | src/lib/auth.ts:20-28 | the token payload is exactly the user's id, email and role, with a 7-day lifetime |
| Auth.VerifyToken | src/lib/auth.ts:30-36 | `verifyToken` is null exactly when verification throws, and otherwise the decoded claims |
| Auth.ExtractTokenFromHeader | src/lib/auth.ts:38-43 | a token is found iff the header starts with exactly `"Bearer "`; the header is then the prefix followed by the token, which is 7 characters shorter |
| Auth.ExtractTokenRoundTrip | src/lib/auth.ts:42 | `"Bearer " + t` yields `t` for every t |
| Auth.ExtractTokenOfBarePrefix | src/lib/auth.ts:42 | the header `"Bearer "` yields the empty token |
| Auth.ExtractTokenOfNothing | src/lib/auth.ts:39-41 | an absent or empty header yields null |
| Auth.ExtractTokenIsCaseSensitive | src/lib/auth.ts:39-41 | a lower-case `bearer` scheme yields null |
| Auth.Authenticate | src/app/api/bookings/route.ts:14-31 | the guard every route repeats: "No token provided" iff no non-empty Bearer token, "Invalid or expired token" iff verification throws, both 401; otherwise the claims of that very token |
| Auth.IssuedTokenAuthenticates | src/lib/auth.ts:20-36 | a token the server signed for a user authenticates as that user's id, email and role |
| Middleware.Gate | src/middleware.ts:9-28 | paths outside `/api/protected` pass; protected paths pass with valid claims and otherwise get the guard's 401 |
| Middleware.GateWithoutToken | src/middleware.ts:10-17 | a protected path without a header gets 401 "No token provided" |
| Middleware.GateWithRefusedToken | src/middleware.ts:19-25 | a protected path whose token fails verification gets 401 "Invalid or expired token" |
| Middleware.GateHasNoRoleCheck | src/middleware.ts:19-28 | any verified token passes, whatever its role |
| Middleware.Route | src/middleware.ts:31-38 | the middleware runs only on matched paths; other requests pass untouched |
| Middleware.MatchedIsProtected | src/middleware.ts:31-38 | every matched path is under `/api/protected` |
| Middleware.UnmatchedPassesThrough | src/middleware.ts:31-38 | `/api/auth/verify` and `/api/services` are not matched and always pass |
| VerifyRoute.VerifyGet | src/app/api/auth/verify/route.ts:11-63 | guard 401s first; an unparsable id is a 500; 404 "User not found" iff the claims' user is absent; 200 returns that user's password-free view |
| VerifyRoute.VerifyIssuedToken | src/app/api/auth/verify/route.ts:11-55 | a token issued for a stored user verifies to 200 with that user's view |
| VerifyRoute.VerifyIgnoresPassword | src/app/api/auth/verify/route.ts:41-55 | changing a stored password hash never changes the answer: the password is not in it |
| VerifyRoute.FindIgnoresPassword | src/app/api/auth/verify/route.ts:32 | the lookup by id finds the same user view whatever the stored hashes |
| UserModel.ParseRole | src/models/User.ts:35-39 | the role enum admits exactly "seeker" and "taskio", each naming its role |
| UserModel.RoleNameRoundTrip | src/models/User.ts:35-39 | parsing a role's name gives the role back |
| UserModel.ValidEmailShape | src/models/User.ts:28 | an address matching the pattern has an inner `@` and ends in at least two word characters |
| UserModel.TldRunEnd | src/models/User.ts:28 | a `(\.\w{2,3})+` run is at least three long and ends in two word characters |
| UserModel.ValidEmailExample | src/models/User.ts:28 | "ann@mail.com" matches the pattern |
| UserModel.InvalidEmailExample | src/models/User.ts:28 | "ann@example" (no top-level domain) does not match |
| UserModel.CastName | src/models/User.ts:16-21 | a name is accepted iff present and 1..50 long after trimming; it is stored trimmed |
| UserModel.TrimKeepsLowerCase | src/models/User.ts:26-27 | trimming a lower-case text keeps it lower case |
| UserModel.CastEmail | src/models/User.ts:22-29 | an e-mail is accepted iff its lower-cased, trimmed form matches the pattern; that form is stored |
| UserModel.CastPassword | src/models/User.ts:30-34 | a password is accepted iff present and at least 6 long; it is stored as given |
| UserModel.CastRole | src/models/User.ts:35-39 | an absent role defaults to seeker; a given one must be in the enum |
| UserModel.CastUser | src/models/User.ts:14-52 | a user is created iff every field casts; the result satisfies the schema invariant, carries the cast fields and has null images |
| UserModel.ToLowerOfLower | src/models/User.ts:26 | lower-casing a lower-case text changes nothing |
| UserModel.CastNameOfStored | src/models/User.ts:16-21 | a stored name casts to itself |
| UserModel.CastEmailOfStored | src/models/User.ts:22-29 | a stored e-mail casts to itself |
| UserModel.CastUserRoundTrip | src/models/User.ts:14-52 | casting a valid stored user's own fields rebuilds that user |
| UserModel.FindUserById | src/app/api/auth/verify/route.ts:32 | `findById` finds a user with that id from the collection, and nothing iff none has it |
| UserModel.FindUserByEmail | src/app/api/auth/signin/route.ts:21 | `findOne({ email })` finds a user with that e-mail, and nothing iff none has it |
| UserModel.UpdateUserById | src/app/api/user/profile/route.ts:36-40 | `findByIdAndUpdate` changes only the users with that id, applying the update, and returns the updated user iff one exists |
| BookingModel.ParseStatus | src/models/Booking.ts:98-102 | the status enum admits exactly the five names, each naming its status |
| BookingModel.StatusNameRoundTrip | src/models/Booking.ts:98-102 | parsing a status name gives the status back, and distinct statuses have distinct names |
| BookingModel.CastId | src/models/Booking.ts:26-40 | a reference is accepted iff present and an ObjectId |
| BookingModel.CastAtLeast | src/models/Booking.ts:41-55 | a number is accepted iff present and at least the schema minimum |
| BookingModel.CastTrimmed | src/models/Booking.ts:64-97 | a required trimmed string is accepted iff it is non-empty after trimming, and stored trimmed |
| BookingModel.CastRequired | src/models/Booking.ts:60-63 | `bookingTime`, a required untrimmed string, is accepted iff non-empty, and stored as given |
| BookingModel.CastDate | src/models/Booking.ts:56-59 | `bookingDate` is accepted iff present, non-empty and castable to a date; the text that passed is stored |
| BookingModel.CastStatus | src/models/Booking.ts:98-102 | an absent status defaults to pending; a given one must be in the enum |
| BookingModel.CastContact | src/models/Booking.ts:64-97 | the address and contact fields are accepted iff each is non-blank, and all are stored trimmed |
| BookingModel.CastBooking | src/models/Booking.ts:24-107 | a booking is created iff every field casts (a booking date that is not a date refuses it); the result satisfies the schema invariant; every stored field is tied to the input: ids, numbers and the contact e-mail as cast, date and time as given, address, city, state, zip code and phone trimmed, special instructions trimmed when given and absent otherwise; the status defaults to pending |
| BookingModel.SpecialInstructionsOptional | src/models/Booking.ts:84-87 | leaving out the special instructions never decides whether a booking is accepted |
| BookingModel.CastBookingRoundTrip | src/models/Booking.ts:24-107 | casting a valid booking's own fields, with a booking date that is a date, rebuilds it |
| ServiceModel.ParsePricingModel | src/models/Service.ts:78-82 | the pricing model enum is exactly hourly, fixed, package |
| ServiceModel.ParseUrgency | src/models/Service.ts:112-116 | urgency is low, medium or high, and a parsed value's name is the text it came from |
| ServiceModel.ParseWeekday | src/models/Service.ts:104-107 | availability days are the seven weekday names, and a parsed day's name is the text it came from |
| ServiceModel.ParseTimeOfDay | src/models/Service.ts:108-111 | availability times are morning, afternoon, evening, night, and a parsed time's name is the text it came from |
| ServiceModel.ParseLocationType | src/models/Service.ts:118-123 | the location type is in-person, remote or both |
| ServiceModel.ParseBookingType | src/models/Service.ts:158-163 | the booking type is instant, approval or consultation |
| ServiceModel.ParseServiceType | src/models/Service.ts:184-188 | the service type is individual, group or both, and a parsed value's name is the text it came from |
| ServiceModel.EnumNamesParseBack | src/models/Service.ts:78-188 | every value of the seven enums parses back from its stored name, so names and values correspond one to one |
| ServiceModel.TrimAll | src/models/Service.ts:68-71 | a trimmed string array keeps its length and trims each element |
| ServiceModel.ParseAll | src/models/Service.ts:103-111 | an enum array is accepted iff every element is in the enum, element by element |
| ServiceModel.CastRequiredText | src/models/Service.ts:57-77 | a required trimmed text is accepted iff non-blank and within its maximum length after trimming |
| ServiceModel.CastPriceRange | src/models/Service.ts:83-98 | both bounds are required and non-negative; the currency defaults to USD |
| ServiceModel.CastAvailability | src/models/Service.ts:103-117 | days and times must be in their enums and are stored as parsed, element by element; urgency is the parsed value, medium when absent; an absent block is empty |
| ServiceModel.CastLocation | src/models/Service.ts:118-132 | the location type is required and in its enum; a service radius must be non-negative and is kept; the service area is stored trimmed when given and absent otherwise |
| ServiceModel.CastExperience | src/models/Service.ts:133-147 | years of experience must be non-negative and default to 0; skills are trimmed |
| ServiceModel.CastPortfolio | src/models/Service.ts:148-157 | an absent portfolio is two empty lists; a given one keeps every image and link, each trimmed, in order |
| ServiceModel.CastBookingPolicy | src/models/Service.ts:158-173 | the booking type and a non-blank cancellation policy are required |
| ServiceModel.CastAdditionalInfo | src/models/Service.ts:174-189 | a non-blank duration and a service type in its enum are required; the duration and equipment are stored trimmed and the type as parsed |
| ServiceModel.CastService | src/models/Service.ts:50-198 | a service is created iff the owner id is an ObjectId and every part casts; the result satisfies the schema invariant; every field is tied to the input: ids and time as given, title, category, tags and description trimmed, the pricing model and price range as parsed, availability, location, experience, portfolio, booking policy and additional info as their casts give them, no image; active unless told otherwise, not negotiable by default |
| ServiceModel.SchemaAdmitsInvertedRange | src/models/Service.ts:83-98 | the schema alone admits a service, with any ObjectId owner, whose minimum price exceeds its maximum |
| ServiceModel.FindServiceById | src/app/api/bookings/route.ts:176 | `findById` finds a service with that id, and nothing iff none has it |
| Database.AppendValidBooking | src/app/api/bookings/route.ts:223 | saving a valid booking keeps the collection valid |
| BookingsRoute.ServiceRef | src/app/api/bookings/route.ts:56 | the service reference resolves iff the service exists |
| BookingsRoute.PersonRef | src/app/api/bookings/route.ts:57-58 | a user reference resolves iff the user exists |
| BookingsRoute.ViewOf | src/app/api/bookings/route.ts:76-109 | the transformed element keeps the booking's id, creation time and status |
| BookingsRoute.Transform | src/app/api/bookings/route.ts:63-113 | the map-then-filter keeps exactly the bookings whose three references resolved, as their views |
| BookingsRoute.TransformConcat | src/app/api/bookings/route.ts:63-113 | the transform of a concatenation is the concatenation of the transforms: survivors keep their relative order |
| BookingsRoute.TransformKeepsOrder | src/app/api/bookings/route.ts:63-113 | dropping the unresolved bookings keeps a newest-first list newest first |
| BookingsRoute.PopulateAll | src/app/api/bookings/route.ts:55-58 | each booking is populated, one for one and in order |
| BookingsRoute.ListBookingsMembers | src/app/api/bookings/route.ts:35-113 | the answer holds exactly the caller's bookings in the role's slot (taskioId for `role=taskio`, customerId otherwise) whose references resolve |
| BookingsRoute.ListBookingsNewestFirst | src/app/api/bookings/route.ts:55-113 | the answer is newest first |
| BookingsRoute.TransformAllResolved | src/app/api/bookings/route.ts:63-113 | with every reference resolvable nothing is dropped |
| BookingsRoute.GetBookings | src/app/api/bookings/route.ts:9-130 | guard 401s first; 400 "Invalid user ID format" iff the caller's id is not an ObjectId; otherwise exactly 200 with the listing |
| BookingsRoute.NoneMissing | src/app/api/bookings/route.ts:166-173 | when the field loop passes, the ids and the three numbers are truthy |
| BookingsRoute.CheckService | src/app/api/bookings/route.ts:176-214 | after the fields: 500 for an unparsable service id, 404 for an unknown service; accepted iff the service is active, owned by `taskioId`, the price is within [min,max] and the total is within 0.01 of price × quantity |
| BookingsRoute.CheckPrecedence | src/app/api/bookings/route.ts:184-214 | inactive → 400, then wrong taskio → 400, then price out of range → 400, then wrong total → 400, each only when the earlier checks passed |
| BookingsRoute.CheckRequest | src/app/api/bookings/route.ts:160-214 | the first falsy required field gives 400 "<field> is required"; only then do the service checks run |
| BookingsRoute.ZeroPriceIsMissing | src/app/api/bookings/route.ts:166-173 | a price of 0 is reported as "price is required" |
| BookingsRoute.CreatedBookingIsCallersAndPending | src/app/api/bookings/route.ts:217-221 | whatever the body says, the created booking's customer is the caller and its status pending |
| BookingsRoute.PostDecision | src/app/api/bookings/route.ts:138-223 | guard 401s first; every refusal is 400, 401, 404 or 500 |
| BookingsRoute.PostDecisionSteps | src/app/api/bookings/route.ts:138-223 | past the guard: a body that is not JSON is 500; a failed check answers with its own status and message; a body that passed every check is saved as the schema casts it, or is 500 when the cast refuses |
| BookingsRoute.PostSavesOnlyWhenAllChecksPass | src/app/api/bookings/route.ts:138-223 | a booking is saved only for an authenticated caller whose body passes every check; it is the caller's, pending and valid |
| BookingsRoute.SavedBookingIsValid | src/app/api/bookings/route.ts:217-223 | the saved booking satisfies the schema invariant |
| BookingsRoute.PostBooking | src/app/api/bookings/route.ts:133-247 | the store gains exactly the decided booking, or nothing on a refusal; the response is the decision's; other collections are untouched and the store stays valid |
| ServicesRoute.OwnedServicesMembers | src/app/api/services/route.ts:40 | the provider's list holds exactly their own services, newest first |
| ServicesRoute.ServicesGet | src/app/api/services/route.ts:7-57 | guard 401s first; 403 iff the role is not taskio; then 500 when the caller's id is not an ObjectId, and otherwise exactly 200 with the caller's services |
| ServicesRoute.CreateDecision | src/app/api/services/route.ts:60-119 | guard 401s first; 403 iff not a taskio; then a body that is not JSON is 500; the first falsy required field gives 400 "<field> is required"; every refusal is 400, 401, 403 or 500 |
| ServicesRoute.RangeCheck | src/app/api/services/route.ts:106-135 | past the field checks, "Minimum price cannot be greater than maximum price" is answered iff min > max; otherwise the service is created exactly as the schema casts it with the caller as owner, or the cast's refusal is 500, which it is whenever the caller's id is not an ObjectId |
| ServicesRoute.EqualBoundsAccepted | src/app/api/services/route.ts:106-111 | min == max is not refused as an inverted range |
| ServicesRoute.CreatedServiceIsCallers | src/app/api/services/route.ts:113-119 | a `taskioId` in the body changes nothing; a created service belongs to the caller, whose id is an ObjectId, is valid and has min ≤ max |
| ServicesRoute.FirstMissingSameTruth | src/app/api/services/route.ts:95-103 | the field loop depends only on which fields are truthy |
| ServicesRoute.PostService | src/app/api/services/route.ts:60-136 | the store gains exactly the created service (201) or nothing; other collections are untouched and the store stays valid |
| PublicServicesRoute.Project | src/app/api/services/public/route.ts:40-59 | the public record keeps the service's id and creation time and the owner's id |
| PublicServicesRoute.ProjectAll | src/app/api/services/public/route.ts:34-59 | the projection succeeds iff every owner resolves, element by element |
| PublicServicesRoute.PublicGet | src/app/api/services/public/route.ts:7-76 | 500 iff some listed service's owner is missing; otherwise 200 with one record per listed service |
| PublicServicesRoute.PublicGetMembers | src/app/api/services/public/route.ts:17-59 | a record is returned iff it projects a service that passes the active, category and search filters together |
| PublicServicesRoute.PublicGetActiveNewestFirst | src/app/api/services/public/route.ts:17-37 | only active services are returned, in the requested category when one applies, newest first |
| PublicServicesRoute.FiltersOff | src/app/api/services/public/route.ts:17-31 | an empty search, the category "all" or an empty category apply no filter; with none, exactly the active services pass |
| PublicServicesRoute.SearchIgnoresCase | src/app/api/services/public/route.ts:25-31 | the search ignores case, and a service always matches its own title |
| SignupRoute.EmailKey | src/app/api/auth/signup/route.ts:35 | the e-mail as stored and looked up is lower case and trimmed |
| SignupRoute.SignupDecision | src/app/api/auth/signup/route.ts:10-54 | a body that is not JSON is a 500; then in order: 400 iff a field is falsy, 400 iff the password is short, 400 iff the role is outside the enum, 409 iff the lower-cased e-mail is taken; past all of them the user is registered exactly as the schema casts the lower-cased e-mail and hashed password, or the cast's refusal is 500; refusals are 400, 409 or 500 |
| SignupRoute.RegisteredUserShape | src/app/api/auth/signup/route.ts:44-52 | a registered user is valid, stores the lower-cased e-mail and the hash (never the plain password) and the chosen role, and the e-mail was not taken |
| SignupRoute.DuplicateIgnoresCase | src/app/api/auth/signup/route.ts:35-41 | an address differing from a stored one only in case gets 409 |
| SignupRoute.MissingRoleRefused | src/app/api/auth/signup/route.ts:27-32 | a missing role is refused with 400 although the schema would default it to seeker |
| SignupRoute.Signup | src/app/api/auth/signup/route.ts:6-82 | the store gains exactly the registered user, answered 201 with the password-free view and no token, or nothing; unique e-mails and validity are preserved |
| SigninRoute.Signin | src/app/api/auth/signin/route.ts:10-59 | 400 iff a credential is falsy; the same 401 "Invalid email or password" iff the lower-cased e-mail is unknown or the password fails; 200 returns the matching user's view and a token for them |
| SigninRoute.SigninTokenAuthenticates | src/app/api/auth/signin/route.ts:39-59 | the token sign-in returns authenticates as the returned user |
| SigninRoute.SignupThenSignin | src/app/api/auth/signin/route.ts:21-59 | after signing up, signing in with the same password and the e-mail in any case succeeds with that user |
| SigninRoute.FindAfterAppend | src/app/api/auth/signin/route.ts:21 | a newly added user with an unused e-mail is found by it |
| ProfileRoute.UpdateProfile | src/app/api/user/profile/route.ts:6-58 | guard 401s first; a body that is not JSON is 500; 400 iff the name is missing or blank; then 400 iff longer than 50; then 500 for an id that is not an ObjectId, 404 when no user has it, and otherwise 200 with the renamed user's view; on 200 only the caller's record changes, to the trimmed name |
| ProfileRoute.RenameChangesOnlyTheName | src/app/api/user/profile/route.ts:36-40 | the update changes only the caller's name, stores it trimmed, and keeps the users valid |
| ProfileRoute.LengthMeasuredBeforeTrim | src/app/api/user/profile/route.ts:27-33 | a name of 49 letters padded by two spaces is refused as too long although it would fit once trimmed |
| ProfileRoute.PatchProfile | src/app/api/user/profile/route.ts:6-58 | the store's users become the decision's, other collections are untouched and the store stays valid |
| StatsRoute.Bucket | src/app/api/dashboard/stats/route.ts:133-152 | "Just now" iff under 60 s (negative included); otherwise the unit is fixed by the thresholds and the count is the floor, at least 1 |
| StatsRoute.PluralIffMany | src/app/api/dashboard/stats/route.ts:139-150 | the unit takes an "s" iff the count exceeds 1 |
| StatsRoute.PhraseStartsWithCount | src/app/api/dashboard/stats/route.ts:139-150 | the phrase starts with the count's digits followed by a space |
| StatsRoute.JustNowIffUnderAMinute | src/app/api/dashboard/stats/route.ts:133-138 | "Just now" iff fewer than 60 000 ms have elapsed |
| StatsRoute.Earnings | src/app/api/dashboard/stats/route.ts:44-61 | earnings are 0 when the caller has no completed booking |
| StatsRoute.SumTotalsNonNegative | src/app/api/dashboard/stats/route.ts:51-56 | a sum of non-negative totals is non-negative |
| StatsRoute.EarningsNonNegative | src/app/api/dashboard/stats/route.ts:44-61 | over valid bookings the earnings are non-negative |
| StatsRoute.EarningsOfAppend | src/app/api/dashboard/stats/route.ts:44-61 | a new booking adds its total exactly when it is the caller's and completed |
| StatsRoute.SumTotalsAppend | src/app/api/dashboard/stats/route.ts:51-56 | the sum over two lists is the sum of the sums |
| StatsRoute.JobsPartition | src/app/api/dashboard/stats/route.ts:64-73 | active + completed + cancelled is the caller's total, so active + completed ≤ total |
| StatsRoute.TotalServicesIgnoresActive | src/app/api/dashboard/stats/route.ts:76-78 | switching a service on or off does not change the service count |
| StatsRoute.ServiceTitle | src/app/api/dashboard/stats/route.ts:96 | "Unknown Service" when the service is missing, its title when present and non-empty |
| StatsRoute.CustomerName | src/app/api/dashboard/stats/route.ts:97 | "Unknown Customer" when the customer is missing, their name when present and non-empty |
| StatsRoute.RecentActivity | src/app/api/dashboard/stats/route.ts:81-102 | the feed has at most 5 entries |
| StatsRoute.RecentActivityShape | src/app/api/dashboard/stats/route.ts:81-102 | the feed has min(5, caller's bookings) entries, newest first, each carrying the id, amount and status of one of the caller's bookings |
| StatsRoute.RecentBookingsAreNewest | src/app/api/dashboard/stats/route.ts:81-88 | the bookings kept are drawn from the caller's, each at most as often as it occurs, and every one of the caller's bookings left out is no newer than any kept |
| StatsRoute.RecentActivityIsNewest | src/app/api/dashboard/stats/route.ts:81-102 | entry i is the activity of the i-th kept booking, so its title, customer and elapsed time are that booking's; the kept bookings are the caller's, and any left out is no newer than every entry shown |
| StatsRoute.DashboardStats | src/app/api/dashboard/stats/route.ts:8-131 | guard 401s first; 200 iff authenticated with a parsable id, whatever the role; the figures are the earnings, the job counts, the service count and the constant rating 4.8 |
| UploadImageRoute.ParseKind | src/app/api/user/upload-image/route.ts:43-45 | the image type is exactly profilePicture, headerImage or serviceImage |
| UploadImageRoute.CheckUpload | src/app/api/user/upload-image/route.ts:11-57 | the checks before the upload: the guard 401s first; then 500 for an id that is not an ObjectId, 404 iff no user has it, 500 for a form that cannot be read; the upload proceeds iff the user exists, both form fields are present, the type is known, the MIME type allowed and the size at most 5 MiB; refusals are 400, 401, 404 or 500 |
| UploadImageRoute.CheckUploadOrder | src/app/api/user/upload-image/route.ts:39-57 | for a known user: missing fields, then an unknown type, then the MIME type, then the size, each answering iff the earlier checks passed |
| UploadImageRoute.SizeBound | src/app/api/user/upload-image/route.ts:54-57 | 5 242 880 bytes are accepted, 5 242 881 refused |
| UploadImageRoute.FindOwnedService | src/app/api/user/upload-image/route.ts:76-79 | a service is found iff one has that id and is owned by the caller |
| UploadImageRoute.SetServiceImage | src/app/api/user/upload-image/route.ts:82-86 | only the services with that id change, and only their image; the updated one is returned iff it exists |
| UploadImageRoute.Attach | src/app/api/user/upload-image/route.ts:69-108 | after the upload: for a service image, 400 without a service id, 500 for an id that is not an ObjectId, 404 iff not the caller's service, and otherwise 200 with that service carrying the new image, users untouched; for a profile or header image, 200 with the URL and the caller's updated view when the caller exists; a refusal changes nothing |
| UploadImageRoute.AttachChangesOneField | src/app/api/user/upload-image/route.ts:82-102 | a successful attach changes only the requested image field of the one record |
| UploadImageRoute.AttachKeepsValid | src/app/api/user/upload-image/route.ts:82-102 | attaching keeps valid users and services valid |
| UploadImageRoute.HostedUrl | src/app/api/user/upload-image/route.ts:65-66 | the upload goes to `taskio/<imageType>` and happens only when the checks passed |
| UploadImageRoute.UploadImage | src/app/api/user/upload-image/route.ts:8-118 | a refusal before the upload changes nothing; a failed upload is 500; a successful one is recorded as hosted and then attached, even when the attach is refused; bookings are untouched and the store stays valid |
| UploadImageRoute.RefusedServiceImageWasHosted | src/app/api/user/upload-image/route.ts:65-79 | a service image without a service id, or for a service the caller does not own, is refused (400 or 404) by the attach step, which runs after the upload |
| ImageUploadHook.Precheck | src/hooks/useImageUpload.ts:19-48 | the request is built iff a file is given, its MIME type allowed, its size at most 5 MiB, a token present and, for a service image, a service id; in that order, each failing check gives its own message iff every earlier one passed: "Please select a file", invalid type, too large, no token, service id required |
| ImageUploadHook.Settle | src/hooks/useImageUpload.ts:72-90 | an ok answer returns the URL, shows the success toast and reports the URL iff `onSuccess` was given; any other answer fails with its message as the error toast |
| ImageUploadHook.ClientLimitsMatchServer | src/hooks/useImageUpload.ts:25-36 | the hook's MIME list, size bound and messages equal the route's |
| ImageUploadHook.SentRequestPassesServerChecks | src/hooks/useImageUpload.ts:54-64 | a request the hook sends passes the route's checks for a valid token and a stored user, with the same type and file, and a service id whenever one is needed |
| ImageUploadHook.ServerErrorSurfaces | src/hooks/useImageUpload.ts:74-76 | a route refusal surfaces as a failure carrying the route's error message |
| ImageUploadHook.ServerUrlReachesCaller | src/hooks/useImageUpload.ts:81-85 | a route success hands its image URL to the caller and to `onSuccess` |
| ImageUploadHook.ImageUploader.constructor | src/hooks/useImageUpload.ts:13-14 | the hook starts not uploading, at progress 0 |
| ImageUploadHook.ImageUploader.Begin | src/hooks/useImageUpload.ts:19-51 | a failed pre-check shows its toast and changes nothing; otherwise the request is built, uploading starts and progress is 0 |
| ImageUploadHook.ImageUploader.Finish | src/hooks/useImageUpload.ts:72-94 | the outcome is the settled answer, and uploading ends at progress 0 whatever happened |
| ImageUploadHook.ImageUploader.UploadImage | src/hooks/useImageUpload.ts:16-95 | a refused pre-check sends nothing and keeps the state; otherwise the server's answer is settled and the hook ends idle |
| BookingDashboard.FilteredBookings | src/app/dashboard/bookings/page.tsx:128-130 | "all" shows every booking; any other status shows exactly the bookings with it |
| BookingDashboard.FilteredKeepsOrder | src/app/dashboard/bookings/page.tsx:128-130 | the filter keeps the original order |
| BookingDashboard.StatusCountIsFilterLength | src/app/dashboard/bookings/page.tsx:128-134 | a status's count is the length of the filtered list for it |
| BookingDashboard.StatusCountsSumToAll | src/app/dashboard/bookings/page.tsx:132-134 | the counts of the five statuses add up to the number of bookings |
| BookingDashboard.StatusColorsDistinct | src/app/dashboard/bookings/page.tsx:99-114 | each status has its own colour and any other text the grey default |
| BookingDashboard.OfferedMoves | src/app/dashboard/bookings/page.tsx:357-425 | the buttons offer exactly pending → confirmed or cancelled, confirmed → in-progress, in-progress → completed |
| BookingDashboard.OfferedMovesGoForward | src/app/dashboard/bookings/page.tsx:357-425 | every offered move goes forward, never back to pending, and cancelling is offered only from pending |
| BookingDashboard.MarkStatus | src/app/dashboard/bookings/page.tsx:85-89 | only the booking with that id changes, and only its status |
| BookingDashboard.MarkStatusMovesCounts | src/app/dashboard/bookings/page.tsx:82-89 | with unique ids, a local update moves one booking from its old status count to the new one |
| BookingDashboard.MarkOneCount | src/app/dashboard/bookings/page.tsx:85-89 | how one marked booking shifts any status count |
| BookingDashboard.BookingsPanel.constructor | src/app/dashboard/bookings/page.tsx:51-54 | no bookings, loading, filter "all", no update in flight |
| BookingDashboard.BookingsPanel.FetchBookings | src/app/dashboard/bookings/page.tsx:62-73 | a response replaces the bookings; a failure keeps them and shows "Failed to load bookings"; loading ends either way |
| BookingDashboard.BookingsPanel.SelectStatus | src/app/dashboard/bookings/page.tsx:165-212 | the filter changes and nothing else; "all" shows every booking |
| BookingDashboard.BookingsPanel.BeginUpdate | src/app/dashboard/bookings/page.tsx:75-77 | the booking is marked as updating and its buttons are disabled |
| BookingDashboard.BookingsPanel.FinishUpdate | src/app/dashboard/bookings/page.tsx:82-96 | success marks the booking and toasts the new status; a falsy success changes nothing; a throw shows the error toast; the in-flight marker is cleared in every case |
| BookingDashboard.BookingsPanel.UpdateBookingStatus | src/app/dashboard/bookings/page.tsx:75-97 | the bookings change only on a successful PATCH and then only that booking's status; the in-flight marker ends cleared |
| AuthContext.Reduce | src/context/AuthContext.tsx:23-46 | every action keeps "signed in iff a user iff a token" |
| AuthContext.InitialStateConsistent | src/context/AuthContext.tsx:8-13 | the initial state is consistent, signed out and loading |
| AuthContext.RunKeepsConsistent | src/context/AuthContext.tsx:8-46 | any run of actions from a consistent state stays consistent |
| AuthContext.ActionEffects | src/context/AuthContext.tsx:25-44 | SET_LOADING changes only isLoading; SET_USER sets user and token, signed in, not loading; LOGOUT clears them, signed out, not loading; SET_ERROR changes nothing |
| AuthContext.ReduceIdempotent | src/context/AuthContext.tsx:27-42 | LOGOUT twice is LOGOUT once, and so is the same SET_USER twice |
| AuthContext.LastSessionActionDecides | src/context/AuthContext.tsx:27-42 | after any run, the last SET_USER or LOGOUT decides who is signed in |
| AuthContext.SessionFieldsSurvive | src/context/AuthContext.tsx:23-46 | any run of loading and error actions leaves the user, the token and the signed-in flag alone |
| ServiceForm.AppendTrimmed | src/components/ServiceForm.tsx:104-121 | a blank value changes nothing; otherwise the trimmed, non-blank value is appended and the rest kept |
| ServiceForm.RemoveAt | src/components/ServiceForm.tsx:132 | an in-range index removes exactly that element; any other index leaves the list unchanged |
| ServiceForm.Toggle | src/components/ServiceForm.tsx:149-152 | a present value loses every copy and nothing else changes membership; an absent one is appended once |
| ServiceForm.RemoveAtKeepsOrder | src/components/ServiceForm.tsx:126-145 | removal keeps the elements before the index and shifts those after it by one |
| ServiceForm.ToggleTwiceRestores | src/components/ServiceForm.tsx:147-162 | toggling an absent value twice restores the list |
| ServiceForm.TogglePresentKeepsOrder | src/components/ServiceForm.tsx:150-151 | removing a present value keeps the remaining elements in order |
| ServiceForm.WithList | src/components/ServiceForm.tsx:107-121 | a list is replaced at the top level when section equals field, otherwise inside the section; other entries and fields are kept |
| ServiceForm.WithListKeepsOtherLists | src/components/ServiceForm.tsx:107-121 | replacing one list leaves every other list in the form intact |
| ServiceForm.HandleNestedChange | src/components/ServiceForm.tsx:93-101 | one field of one section is set; other sections and sibling fields are kept |
| ServiceForm.AddArrayItem | src/components/ServiceForm.tsx:103-124 | a blank value changes nothing; otherwise the trimmed value is appended to the addressed list and everything else kept |
| ServiceForm.RemoveArrayItem | src/components/ServiceForm.tsx:126-145 | the addressed list loses exactly the indexed element, or is unchanged for a bad index; everything else is kept |
| ServiceForm.ToggleArrayItem | src/components/ServiceForm.tsx:147-162 | the nested list loses every copy of a present value or gains an absent one; everything else is kept |
| ServiceForm.ToggleArrayItemTwice | src/components/ServiceForm.tsx:147-162 | clicking an unchecked day or time twice gives back the same form |
| ServiceList.FormatPrice | src/app/dashboard/service-list/page.tsx:152-157 | the label starts with "$" |
| ServiceList.FormatPriceIgnoresModel | src/app/dashboard/service-list/page.tsx:152-157 | the pricing model never changes the label |
| ServiceList.WholePriceReadsBack | src/app/dashboard/service-list/page.tsx:152-157 | for whole-dollar bounds the label has a dash iff min ≠ max, and the numbers around it read back as min and max |
| ServiceList.ModelLabels | src/app/dashboard/service-list/page.tsx:161 | the models show as "Hourly", "Fixed" and "Package" |
| ServiceList.PricingText | src/app/dashboard/service-list/page.tsx:159-163 | the price label, then " (", the model with its first letter upper-cased, then ")" |
| ServiceList.Chips | src/app/dashboard/service-list/page.tsx:303-312 | the first min(3, n) tags are shown, with "+N more" iff there are more than 3, N being the rest |
| ServiceList.ChipsAccountForAllTags | src/app/dashboard/service-list/page.tsx:303-312 | the shown tags and the hidden count account for every tag |
| ServiceList.ToggledActive | src/app/dashboard/service-list/page.tsx:142-145 | the switch sends the opposite of the current status |
| ServiceList.ToggleTwice | src/app/dashboard/service-list/page.tsx:142-145 | switching twice restores the status, and the two toasts differ |
| ServiceList.StatisticsOf | src/app/dashboard/service-list/page.tsx:420-437 | total is the number of services; active, remote and instant are each at most total |
| ServiceList.ActiveAndInactiveMakeTotal | src/app/dashboard/service-list/page.tsx:420-427 | the active and inactive services add up to the total |
| AuthPage.SignInCheck | src/app/auth/page.tsx:51-54 | sign-in proceeds iff both fields are non-empty, else "Please fill in all fields." |
| AuthPage.SignUpCheck | src/app/auth/page.tsx:67-78 | in order: all four fields filled, passwords equal, password at least 6; sign-up proceeds iff all hold |
| AuthPage.SentSignUpPassesServerChecks | src/app/auth/page.tsx:75-86 | the page's bound is the route's, and a payload it sends can only be refused for a taken e-mail (409) or a schema fault (500) |
| AuthPage.AuthPageState.constructor | src/app/auth/page.tsx:15-28 | empty forms, no messages, role seeker |
| AuthPage.AuthPageState.SignInChange | src/app/auth/page.tsx:37-41 | the edited field changes and both messages clear |
| AuthPage.AuthPageState.SignUpChange | src/app/auth/page.tsx:43-47 | the edited field changes and both messages clear |
| AuthPage.AuthPageState.HandleSignIn | src/app/auth/page.tsx:49-63 | a failed check sets its error without calling signIn; otherwise signIn gets the form, and success clears the form and redirects while failure sets "Invalid email or password." |
| AuthPage.AuthPageState.HandleSignUp | src/app/auth/page.tsx:65-92 | a failed check sets its error without calling signUp; otherwise signUp gets name, e-mail, password and role (never the confirmation), then clears and redirects or sets the failure message |

## Left out

- JWT signing and verification, and bcrypt hashing and comparison (src/lib/auth.ts:11-36), are the parameters `sign`, `jwtVerify`, `hash` and `compare`. `Auth.SoundSigner` states the one property the proofs need: what `sign` signs, `jwtVerify` decodes. Expiry is whatever `jwtVerify` decides.
- The image host (src/lib/cloudinary.ts is not part of this model) is the parameter `host`, which may fail. The base64 conversion of the file is not modelled.
- MongoDB:
  - Collections are the sequences of `Database.Store`.
  - `populate` is a lookup that may come back empty. `countDocuments` and `aggregate` are counts and sums over those sequences.
  - ObjectId casts that throw are the parameter `isObjectId`.
  - Connection failures, concurrent requests and the lack of transactions are not modelled.
- A request body that is not JSON is an absent body (`None`), which the routes answer with 500. A field holding a JSON value of the wrong type is not modelled: JavaScript's coercions are left out.
- The booking status PATCH handler (src/app/api/bookings/[id]/route.ts is not part of this model) is the parameter `patch` of `BookingsPanel.UpdateBookingStatus`. Its own transition and ownership checks are not modelled.
- Prices are real numbers: the 0.01 tolerance is exact, with no IEEE rounding.
- The clock is the parameter `now` (milliseconds). `getTimeAgo` floors the elapsed time to whole seconds.
- ServiceList.FormatPrice: JavaScript's rendering of a number is the parameter `show`, so the contract states only the leading "$". The digits are stated for whole-dollar bounds in `WholePriceReadsBack`.
- PublicServicesRoute.SearchIgnoresCase: the search text is used unescaped as a regular expression. The model reads it as a case-insensitive substring, so patterns with special characters are not captured.
- StatsRoute.RecentActivity: its own contract gives only the bound of 5. Length and order are in `RecentActivityShape`; which bookings are shown, and that each entry's fields are its own booking's, are in `RecentBookingsAreNewest` and `RecentActivityIsNewest`.
- StatsRoute.DashboardStats: the debug query of all bookings and the console logging are left out.
- StatsRoute.Earnings: its own contract states only the empty case. `EarningsOfAppend` and `EarningsNonNegative` state the sum.
- Toasts are returned values. `router.push` is the `redirected` result. Both happen on the client.
- The AuthContext provider's callbacks, localStorage and fetches (src/context/AuthContext.tsx:48-235) are left out; only the reducer is modelled. `signIn` and `signUp` are parameters of the auth page's handlers that answer whether the call resolved.
- `useImageUpload` rethrows after its error toast. The model returns `Failed(message)` instead.
- The hook's progress is set to 100 on success and back to 0 in `finally`. Only the final state is stated.
- `ImageUploadHook.ImageUploader.Finish`: the transient value 100 of the hook's progress is not observable after the call and is not stated.
- `FormData` is modelled as a record of optional fields.
- UploadImageRoute.SetServiceImage: the Service schema has no `serviceImage` path, so under mongoose's strict mode `findByIdAndUpdate` would drop the write. The model writes the field, as the route's code and its readers assume.
- Text.ToLower: lower-cases ASCII letters only; JavaScript's `toLowerCase` also folds other letters. Text lengths are counted in characters (code points), while JavaScript's `length` and mongoose's `maxlength` count UTF-16 units; this affects `UserModel.CastName`, `UserModel.CastPassword`, the profile name limit in `ProfileRoute.UpdateProfile`, the password check of the auth page and the title and description limits of `ServiceModel.CastService`, which agree with the source for text outside the astral planes.
- Presentation code, the service form's other handlers (`handleInputChange`, `handleSubmit`) and the pages' fetch calls are left out.
- The `timestamps` option of the User, Booking and Service schemas is modelled as the single `createdAt` the routes read. `updatedAt` is not modelled on any of the three, and `BookingsRoute.BookingView` leaves out the `updatedAt` the bookings `GET` answers.
