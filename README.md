# Daikin service portal: orders, coins, users and profile, in Dafny

This project models the core of the Daikin sales-and-service portal, a
Next.js application backed by Prisma. Staff record orders of Daikin
products. Each order can earn the customer "Daikin coins", a loyalty
balance kept in the customer's details row. The orders that have a next
service date make up the service list. Admins manage user accounts, and
every signed-in user edits their own profile. The model also covers the
small pure pieces of the user interface around this: the avatar initials
in the header, the username derived at sign-up, the product carousel on
the home page and the language switcher.

Layout, one module per file:

- `common.dfy` (`Common`): HTTP errors, the `Result` and `Option` types, the roles, the session and JavaScript truthiness.
- `sequences.dfy` (`Sequences`): the list operations the routes rely on. These are `find`, a summing `reduce`, the filtering of `where`, and the sort of `orderBy`.
- `text.dfy` (`Text`): the string operations used by the routes and components. These are `trim`, `split(/\s+/)`, removing whitespace, ASCII case mapping, case-insensitive `contains` and decimal digits.
- `orders.dfy` (`Orders`): the order POST body, its totals and its line defaults. It also has the GET filter for each role and the GET ordering.
- `services.dfy` (`Services`): the service listing.
- `users.dfy` (`Users`): users, details rows, accounts, the coin credit, and the admin create and list operations.
- `profile.dfy` (`Profile`): the postal-code check, the upsert and the profile GET.
- `store.dfy` (`Store`): a `Store` class whose fields are the Order, User and Account tables. Its methods are the three writing handlers: order POST, admin user POST and profile PATCH. Each states the new tables outright. Each keeps the unique constraints on order ids, user ids and user emails.
- `header.dfy` (`Header`), `username.dfy` (`Username`), `carousel.dfy` (`ProductCarousel`), `language.dfy` (`LanguageSwitcher`): the interface helpers. The carousel index is a `Carousel` class, because the component updates it in place.

How the model represents the system:

- The read handlers (GET) are functions from the session, the query and the stored rows to a `Result`.
- The session is an `Option<Session>`, and its role is the raw string the session holds.
- Timestamps are integers.
- The clock reading, the database-assigned ids and `createdAt`, the password hash and the random four-digit number are parameters.

Points of the order POST worth knowing:

- A line's total is the client's `totalPrice`, copied unchanged. It is not computed as price times quantity. The order total sums those values (`src/app/api/orders/route.ts:92-94`, `:116`).
- Order creation also creates a details row for a known customer who has none (`src/app/api/orders/route.ts:143-150`).
- The coin total is not checked to be non-negative. Only a positive total is credited (`:126`).
- A product lacking its id, description, price or total cannot be stored. The client's types mark these line fields as never null (`src/app/[locale]/dashboard/orders/[id]/page.tsx:19-27`). The nested create then fails. The model gives the handler's 500 "Failed to create order", and nothing is stored (`src/app/api/orders/route.ts:101-123`, `:156-158`).

## Model

| member | source | states |
|---|---|---|
| Common.ParseRole | src/app/api/admin/users/route.ts:73 | a role text it accepts is the name of the role it returns |
| Common.ParseRoleName | src/app/api/admin/users/route.ts:73 | every role's name reads back as that role |
| Common.OrNull | src/app/api/user/profile/route.ts:75-78 | `x ? x : null`: a truthy text is kept, and a missing or empty one becomes null |
| Sequences.FirstIndex | src/app/api/orders/route.ts:83-85 | a unique lookup finds the first row that matches; it finds none exactly when no row matches |
| Sequences.SumByAppend | src/app/api/orders/route.ts:92-98 | summing a `reduce` over two concatenated lists gives the sum of the two sums |
| Sequences.SumByPermutation | src/app/api/orders/route.ts:92-98 | the sum a `reduce` computes does not depend on the order of the list |
| Sequences.SumByUpdate | src/app/api/orders/route.ts:135-142 | replacing one element changes the sum by exactly the difference of that element's values |
| Sequences.SumByPointwise | src/app/api/orders/route.ts:110-117 | two lists whose elements correspond value for value have equal sums |
| Sequences.Filter | src/app/api/services/route.ts:26-40 | a `where` clause keeps each row that passes as often as it is stored, keeps no other row, and every kept row passes |
| Sequences.SortBy | src/app/api/services/route.ts:44-46 | an `orderBy` result is sorted by the key and is a permutation of its input |
| Sequences.SortedFilterMembers | src/app/api/services/route.ts:25-47 | a row is in the sorted, filtered result exactly when it is stored and passes the filter |
| Text.TrimPadded | src/components/header.tsx:23 | whitespace added before or after a text does not change what `trim` leaves of it |
| Text.TrimOfTrimmed | src/components/header.tsx:23 | `trim` leaves a text alone when it neither starts nor ends with whitespace |
| Text.TrimStartAllWhitespace | src/components/header.tsx:23 | a text made only of whitespace trims to the empty text |
| Text.SplitNoWhitespace | src/components/header.tsx:23-25 | `split(/\s+/)` of a text without whitespace (the empty one included) is that one piece |
| Text.SplitFirstPiece | src/components/header.tsx:23 | `split(/\s+/)` of a word, a gap of whitespace and the rest gives the word and then the pieces of the rest |
| Text.SplitFirstChar | src/components/header.tsx:28 | the first piece of a text starting with a non-space starts with that text's first character |
| Text.LowerKeepsWhitespace | src/helpers/auth/generate-username.ts:3 | lowercasing neither adds nor removes whitespace |
| Text.RemoveWhitespaceKeeps | src/helpers/auth/generate-username.ts:3 | `replace(/\s+/g, '')` leaves a text without whitespace unchanged, and turns one made only of whitespace into the empty text |
| Text.RemoveWhitespaceAppend | src/helpers/auth/generate-username.ts:3 | removing whitespace from a concatenation concatenates the two results, so every non-whitespace character is kept in order |
| Text.RemoveWhitespaceChar | src/helpers/auth/generate-username.ts:3 | a single character is dropped exactly when it is whitespace |
| Text.ContainsAt | src/app/api/services/route.ts:35-36 | `contains` holds exactly when the needle occurs at some position of the text |
| Text.DecimalRoundTrip | src/helpers/auth/generate-username.ts:2-3 | the decimal text of a number reads back as that number |
| Text.FourDigits | src/helpers/auth/generate-username.ts:2 | a number from 1000 to 9999 is written with exactly four digits |
| Header.CharAt0 | src/components/header.tsx:25 | `charAt(0)` is the first character, or the empty text for an empty word |
| Header.GetInitials | src/components/header.tsx:20-29 | at most two characters; "U" for a missing or empty name |
| Header.InitialsOneWord | src/components/header.tsx:23-26 | a one-word name gives its first letter, uppercased |
| Header.InitialsTwoWords | src/components/header.tsx:23-28 | a name of two or more words gives the uppercased first letters of the first two words |
| Header.InitialsWhitespaceOnly | src/components/header.tsx:21-25 | a non-empty name made only of whitespace passes the guard and gives the empty text, not "U" |
| Header.InitialsIgnorePadding | src/components/header.tsx:23 | whitespace around a non-empty name does not change its initials |
| Username.GenerateUsername | src/helpers/auth/generate-username.ts:1-3 | the lowercased name without whitespace, then four digits that read back as the number; there is no whitespace anywhere, and the length is the stripped name's plus four |
| Username.SameNormalisedNameSameUsername | src/helpers/auth/generate-username.ts:3 | names that differ only in whitespace and case give the same username for the same number |
| Username.DifferentSuffixesDiffer | src/helpers/auth/generate-username.ts:2-3 | different numbers give different usernames |
| LanguageSwitcher.CurrentLang | src/components/language-switcher.tsx:35 | the language shown is always one of the table; it is the locale's entry when there is one and the first entry otherwise |
| LanguageSwitcher.CodesDistinct | src/components/language-switcher.tsx:15-19 | no two languages share a code |
| LanguageSwitcher.CurrentLangCodes | src/components/language-switcher.tsx:15-35 | the code shown is pl, en or ua; it equals the locale exactly when the locale is one of them, and is the routing default pl otherwise |
| LanguageSwitcher.HandleLanguageChange | src/components/language-switcher.tsx:27-32 | choosing the current locale does nothing; any other choice navigates to the same path under the new locale |
| LanguageSwitcher.ChoosingShowsChoice | src/components/language-switcher.tsx:27-35 | after choosing any menu entry, the switcher shows that entry |
| ProductCarousel.TablesAlign | src/components/product-carousel.tsx:7-8 | the key and icon tables both have five entries, so one index serves both |
| ProductCarousel.Next | src/components/product-carousel.tsx:30-32 | the next index stays in range and wraps from the last to the first |
| ProductCarousel.Previous | src/components/product-carousel.tsx:24-28 | the previous index stays in range |
| ProductCarousel.NextPreviousInverse | src/components/product-carousel.tsx:24-32 | next and previous undo each other |
| ProductCarousel.NextNModulo | src/components/product-carousel.tsx:17-19 | k autoplay steps from i land on (i + k) mod 5 |
| ProductCarousel.FullCycle | src/components/product-carousel.tsx:17-19 | five steps return to the starting product |
| ProductCarousel.Truncate | src/components/product-carousel.tsx:193-196 | names up to 15 characters are kept; longer ones become their first 15 characters and "..." |
| ProductCarousel.TruncateIdempotent | src/components/product-carousel.tsx:193-196 | shortening an already shortened name changes nothing |
| ProductCarousel.Carousel.constructor | src/components/product-carousel.tsx:12 | the carousel starts on the first product |
| ProductCarousel.Carousel.Current | src/components/product-carousel.tsx:34-35 | the key and icon shown are the current index's entries of the two tables |
| ProductCarousel.Carousel.GoToNext | src/components/product-carousel.tsx:30-32 | the right arrow moves to the next index and keeps it in range |
| ProductCarousel.Carousel.GoToPrevious | src/components/product-carousel.tsx:24-28 | the left arrow moves to the previous index and keeps it in range |
| ProductCarousel.Carousel.Tick | src/components/product-carousel.tsx:17-19 | the autoplay interval takes the same step as the right arrow |
| ProductCarousel.Carousel.Select | src/components/product-carousel.tsx:155-158 | a dot or tile selects its own index |
| Orders.OrZero | src/app/api/orders/route.ts:93 | `x \|\| 0`: a missing number counts as 0 |
| Orders.TotalsIgnoreOrder | src/app/api/orders/route.ts:92-98 | the order's price and coin totals do not depend on the order of its products |
| Orders.TotalsSplit | src/app/api/orders/route.ts:92-98 | the totals over two groups of products add up |
| Orders.NormaliseLine | src/app/api/orders/route.ts:110-117 | for a product with every non-null column given, a stored line copies the id, description, price and total; its quantity is the given one, or 1 when that is missing or 0; its warranty is null exactly when none was given |
| Orders.NormaliseLineStable | src/app/api/orders/route.ts:110-117 | a stored line sent back unchanged is stored unchanged |
| Orders.BuildOrder | src/app/api/orders/route.ts:100-119 | for a complete request whose products can all be stored, the stored order has the given ids; its purchase date is the given date, or now; its service date is the given one, or null; its totals are the sums; it has one normalised line per product |
| Orders.BuiltOrderTotalIsLineSum | src/app/api/orders/route.ts:92-117 | a new order's total price is the sum of its stored lines' totals |
| Orders.OrdersWhere | src/app/api/orders/route.ts:13-42 | no session gives 401; USER is limited to their own email and searches the order id only; ADMIN and EMPLOYEE have no owner limit and search the order id or the email; any other role gives 403 |
| Orders.ListOrders | src/app/api/orders/route.ts:44-54 | the GET fails exactly when the filter does; the orders returned are stored rows, newest first |
| Orders.UserSeesOwnOrders | src/app/api/orders/route.ts:24-31 | a USER gets exactly the stored orders with their email that match the search on the order id |
| Orders.StaffSeesAllOrders | src/app/api/orders/route.ts:32-39 | ADMIN and EMPLOYEE get exactly the stored orders that match the search on the order id or the email |
| Orders.ListOrdersCounts | src/app/api/orders/route.ts:44-52 | each stored order that passes the filter comes back as often as it is stored, and no other order comes back |
| Services.ListServices | src/app/api/services/route.ts:13-47 | 401 without a session and 403 for a USER; otherwise only orders with a service date that match the search, earliest service first |
| Services.ServicesAreTheMatchingOrders | src/app/api/services/route.ts:25-47 | the listing is exactly the stored orders that pass both conditions, each as often as it is stored |
| Services.EmptySearchKeepsAllScheduled | src/app/api/services/route.ts:23-38 | without a search, every order with a service date is listed |
| Users.CreditCoins | src/app/api/orders/route.ts:125-153 | a positive coin total goes to the user with the customer's email: their details row grows by it, or is created holding it; nothing changes when the total is not positive or no user has the email |
| Users.CreditAddsExactly | src/app/api/orders/route.ts:132-150 | the credited user's balance grows by exactly the order's coins |
| Users.CreditConservesCoins | src/app/api/orders/route.ts:125-153 | the balances of all users together grow by the coins when someone is credited, and do not change otherwise |
| Users.RequestedRole | src/app/api/admin/users/route.ts:73 | `role \|\| Role.USER`: USER when no role is given, otherwise the role with exactly that name (none if no role has that name) |
| Users.NewUser | src/app/api/admin/users/route.ts:69-86 | the new user row has the given fields and a details row with 0 coins |
| Users.CredentialAccount | src/app/api/admin/users/route.ts:74-80 | the new account is a credential account whose account id is the email |
| Users.ListUsers | src/app/api/admin/users/route.ts:14-30 | 401 without a session and 403 for non-admins; otherwise every stored user, newest first |
| Profile.PostalCodeShape | src/app/api/user/profile/route.ts:63 | `/^\d{2}-\d{3}$/` accepts exactly two digits, a hyphen and three digits |
| Profile.CreateDetails | src/app/api/user/profile/route.ts:72-79 | a new details row stores each given field, null for falsy ones, and the default balance |
| Profile.UpdateDetails | src/app/api/user/profile/route.ts:80-86 | updating a details row never touches its coin balance |
| Profile.UpsertBranchesAgree | src/app/api/user/profile/route.ts:70-86 | both branches of the upsert write the same field values |
| Profile.Upsert | src/app/api/user/profile/route.ts:70-86 | the stored row has the requested fields; the balance is kept when a row existed and is the default otherwise |
| Profile.StoredPostalCodeWellFormed | src/app/api/user/profile/route.ts:63-86 | after an accepted PATCH, the stored postal code is null or well formed |
| Profile.GetProfile | src/app/api/user/profile/route.ts:6-42 | 401 without a session; 404 when no user has the session's id; otherwise that user's row |
| Store.Store.CreateOrder | src/app/api/orders/route.ts:62-155 | 401, 403, 400 for missing fields, 400 for a duplicate id and 500 for a product the line table refuses, with nothing changed; otherwise the built order is appended and the customer is credited, and the unique constraints still hold |
| Store.Store.CreateUser | src/app/api/admin/users/route.ts:40-97 | 401, 403, 400 for a taken email and 500 for a missing email or an unknown role, with nothing changed; otherwise exactly one user and one credential account are appended |
| Store.Store.UpdateProfile | src/app/api/user/profile/route.ts:49-107 | 401, 400 for a malformed postal code and 500 for an unknown user, with nothing changed; otherwise only the caller's name and details change, and no balance changes |

## Left out

- Authentication, sessions and the sign-up flow are outside the model. The session is an input value.
- The password hash of the default password is a parameter. bcrypt is not modelled.
- The e-mail notifications, the service-reminder rules and the date classification of services are not part of this model. This includes the notify route and its day-window rules.
- The order edit and delete routes are not part of this model. That includes the coin delta applied when an order is edited. The admin user edit route is not part of this model either.
- Store.Store.CreateOrder: the order insert and the coin credit are separate database writes in the source. The model applies both in one step. It does not model a failure between them, or concurrent requests racing on the duplicate check.
- The catch-all 500 responses for database failures other than those modelled are left out. The modelled ones are a product the line table refuses in order creation, a missing email or an unknown role in admin user creation, and an unknown user in PATCH.
- Request bodies whose fields have the wrong JSON type, or are not JSON at all, are left out. Fields are typed as the handlers use them.
- Date parsing (`new Date(...)`) is not modelled. Dates arrive as integer timestamps, and an empty or missing date is None.
- Prices, totals and coins are exact integers. JavaScript floating-point sums and fractional prices are not modelled.
- Orders.ListOrders: rows with equal `createdAt` may come back in any order in the database. The model fixes one order and states only the ordering by time. The same holds for Services.ListServices and Users.ListUsers.
- Text.Upper: upper- and lowercasing is ASCII only. Full Unicode case mapping, for example `ß` to `SS`, is not modelled.
- Header.GetInitials: the bound of two characters holds under ASCII case mapping. With full Unicode mapping, JavaScript can return more.
- Header.GetInitials: length and `charAt` count Unicode scalar values rather than UTF-16 code units. The same holds for ProductCarousel.Truncate.
- Text.ContainsInsensitive: the database's case-insensitive matching is modelled as containment after ASCII lowercasing. Database collations are not modelled.
- Profile.GetProfile: the returned row is the whole user record. The `image` and `twoFactorEnabled` fields of the selection are not modelled.
- Orders.NormaliseLine: the database schema is not part of this model. The non-null line columns are taken from the client's types: all except the warranty.
- Profile.CreateDetails: a details row created by PATCH takes the schema's default balance. The schema is not part of this model, and the default is taken as 0.
- ProductCarousel.Carousel.Tick: the five-second timer, the autoplay flag and its clean-up are left out. Each interval firing is one call.
- The rendering, translations and styling of all components are left out. This includes the translated product names, which ProductCarousel.Truncate takes as input.
- LanguageSwitcher.HandleLanguageChange: the router call is returned as a `Navigation` value instead of being performed.
- Username.GenerateUsername: the random number is a parameter in the range that `Math.floor(1000 + Math.random() * 9000)` can produce.
