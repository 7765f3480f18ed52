# PharmaPlus storefront logic in Dafny

This project models the client-side decision logic of the PharmaPlus web
storefront (a Next.js/TypeScript application selling medicines) and proves
what that logic promises.

- **Cart** (`Cart.dfy`, from `components/order/cart.ts`). The cart is one
  local-storage entry, `"cart"`, holding the whole list of cart lines. Every
  operation reads the list, transforms it, and writes it back. Class
  `CartStore` holds the entry as an `Option<seq<CartItem>>` field; `None`
  means nothing is stored. Each mutator is a method whose `ensures` ties the
  new entry to a function of the old list: `Added`, `Increased`, `Decreased`,
  `Removed`, `Toggled` or `Unselected`. Lemmas state what those functions do.
  On a cart with one line per id and per medicine and every quantity at
  least 1, increase, decrease, remove and toggle change only the line with
  the given id; add changes the first line for the medicine or appends a new
  one; unselect-all clears every line's flag. All of them keep that shape
  (add given a positive quantity and a fresh id). `addToCart` accumulates
  quantities per medicine. `decreaseQuantity` deletes a line whose
  quantity reaches 0. A toggle applied twice restores the cart, and
  unselect-all is idempotent. Two scenario methods run whole sessions.
- **Shop grid** (`Shop.dfy`, from `components/shop/Card.tsx`):
  - the de-duplicated manufacturer list;
  - the four-way filter (category tab, manufacturer, inclusive price range,
    case-insensitive substring search);
  - pagination by 9;
  - the image URL rule;
  - class `ShopView`, which holds the component's state. Its `goToPage`
    accepts only a page in range, and every filter change resets the page
    to 1.
- **Request guard** (`Proxy.dfy`, from `proxy.ts`). `Decide` is the redirect
  decision as a pure function of the sign-in flag, the role and the path, with
  the source's branches kept in order. `Handle` adds the `config.matcher` path
  set. The lemmas prove the following:
  - the decision equals a role-exclusion rule;
  - the two signed-out `/cart` and `/checkout` branches can never fire;
  - the prefix test is a raw string prefix;
  - no redirect leads to another redirect.
- **Dashboard sidebar** (`Sidebar.dfy`, from `components/dashboard/Sidebar.tsx`
  and `routes/*.ts`): the route table chosen by role, and the `isActive`
  rule. A proof shows every sidebar link is a page the request guard lets the
  same role through to.
- **Navbar helpers** (`Navbar.dfy`, from `components/common/NavbarClient.tsx`):
  - `getDashboardPath`, shown to be the area that the guard admits the user's
    own role to;
  - `getInitials`, characterised as the upper-cased first letters of the
    words, at most two;
  - the hide-on-scroll state update and the link-click update (class
    `NavbarState`).
- **Shared modules**:
  - `JsArray.dfy`: `filter`, `map`, `findIndex`, `slice` and
    `Array.from(new Set(...))` on sequences, with their laws;
  - `JsString.dfy`: `startsWith`, `includes`, `toLowerCase`/`toUpperCase`,
    `split` and `join`;
  - `Wrappers.dfy`: `Option`.

`getCart` passes the stored text to `JSON.parse`, which throws on malformed
input (`components/order/cart.ts:15`). The model's slot therefore holds either
nothing or a well-typed list.

## Model

| member | source | states |
|---|---|---|
| Cart.FindMedicine | components/order/cart.ts:22 | `cart.find` on `medicineId`: returns the index of the first line for the medicine, or -1 exactly when no line has it; the result agrees with `FirstLineOf`, which `Added` uses |
| Cart.Added | components/order/cart.ts:19-34 | what `addToCart` makes of the list: the first line for the medicine gains the quantity, or a new selected line is appended; characterised by the `Add…` lemmas below |
| Cart.Increased | components/order/cart.ts:42-45 | what `increaseQuantity` makes of the list; characterised by `IncreaseOnlyTouchesId` |
| Cart.Decreased | components/order/cart.ts:52-56 | what `decreaseQuantity` makes of the list: decrement the lines with the id, then keep the lines with positive quantity; characterised by the `Decrease…` lemmas |
| Cart.Removed | components/order/cart.ts:63 | what `removeItem` makes of the list; characterised by `RemoveDropsOnlyId` and `RemoveOnWellFormed` |
| Cart.Toggled | components/order/cart.ts:70-72 | what `toggleSelect` makes of the list; characterised by `ToggleFlipsOnlyId` |
| Cart.Unselected | components/order/cart.ts:79 | what `unselectAll` makes of the list; characterised by `UnselectClearsSelection` |
| Cart.CartStore.constructor | components/order/cart.ts:13-16 | a fresh store has nothing stored under `"cart"` |
| Cart.CartStore.GetCart | components/order/cart.ts:13-16 | returns the empty list when nothing is stored, otherwise exactly the stored list; the store is not changed |
| Cart.CartStore.UpdateCart | components/order/cart.ts:37-39 | afterwards the slot holds exactly the given list, so the next `GetCart` returns it unchanged |
| Cart.CartStore.AddToCart | components/order/cart.ts:19-34 | the slot becomes `Added` of the old list, given an id not already in the cart |
| Cart.CartStore.IncreaseQuantity | components/order/cart.ts:42-48 | returns `Increased` of the old list and stores it |
| Cart.CartStore.DecreaseQuantity | components/order/cart.ts:51-59 | returns `Decreased` of the old list and stores it |
| Cart.CartStore.RemoveItem | components/order/cart.ts:62-66 | returns `Removed` of the old list and stores it |
| Cart.CartStore.ToggleSelect | components/order/cart.ts:69-75 | returns `Toggled` of the old list and stores it |
| Cart.CartStore.UnselectAll | components/order/cart.ts:78-82 | returns `Unselected` of the old list and stores it |
| Cart.AddMergesIntoFirstLine | components/order/cart.ts:22-24 | when line k is the first for the medicine, its quantity grows by the added quantity; the length and every other line are unchanged |
| Cart.AddAppendsNewLine | components/order/cart.ts:25-31 | when no line has the medicine, exactly one line is appended with the given fields, the fresh id and `selected` true; its id was not in the cart |
| Cart.AddKeepsOneLinePerMedicine | components/order/cart.ts:19-34 | one line per medicine before implies one line per medicine after; the length grows by at most one |
| Cart.AddKeepsWellFormed | components/order/cart.ts:19-34 | unique ids, unique medicines and quantities of at least 1 survive an add of a positive quantity with a fresh id |
| Cart.QuantityOfAppend | components/order/cart.ts:26-30 | the per-medicine total of a cart with a line appended grows by that line's share |
| Cart.QuantityOfUpdate | components/order/cart.ts:23-24 | replacing one line changes the per-medicine total by the difference of the two lines' shares |
| Cart.AddAccumulatesQuantity | components/order/cart.ts:19-34 | adding raises the total quantity held for the added medicine by exactly the added quantity and leaves every other medicine's total unchanged |
| Cart.OneLineCarriesTotal | components/order/cart.ts:22 | in a cart with one line per medicine, a line's quantity is the whole total for its medicine |
| Cart.NoLineNoQuantity | components/order/cart.ts:22 | a medicine with no line has total quantity 0 |
| Cart.AddedLineHoldsTotal | components/order/cart.ts:19-34 | after an add to a cart with one line per medicine, the medicine has exactly one line, holding the previous total plus the added quantity |
| Cart.IncreaseOnlyTouchesId | components/order/cart.ts:42-48 | the length is kept; lines with the id gain 1 in quantity and every other line and field is unchanged |
| Cart.IncreaseUnknownIsNoOp | components/order/cart.ts:42-48 | increasing an id that no line has leaves the cart unchanged |
| Cart.IncreaseKeepsWellFormed | components/order/cart.ts:42-48 | an increase keeps ids and medicines unique and quantities at least 1 |
| Cart.DecreaseLeavesPositiveLines | components/order/cart.ts:51-59 | every line left has quantity above 0; a line with another id survives iff its quantity was positive, so the filter drops any non-positive line, not only the decreased one |
| Cart.DecreaseKeepsOrder | components/order/cart.ts:56 | the surviving lines keep their relative order |
| Cart.DecreaseOnWellFormed | components/order/cart.ts:51-59 | on a well-formed cart, decreasing line k deletes it when its quantity was 1 and otherwise lowers only its quantity by 1 |
| Cart.DecreaseUnknownIsNoOp | components/order/cart.ts:51-59 | with all quantities positive, decreasing an unknown id leaves the cart unchanged |
| Cart.DecreaseKeepsWellFormed | components/order/cart.ts:51-59 | a decrease keeps the cart well formed |
| Cart.RemoveDropsOnlyId | components/order/cart.ts:62-66 | no line with the id is left; every other line is kept, in order, with as many copies as before |
| Cart.RemoveOnWellFormed | components/order/cart.ts:63 | with unique ids, removing the id of line k deletes exactly that line |
| Cart.RemoveKeepsWellFormed | components/order/cart.ts:62-66 | a removal keeps the cart well formed |
| Cart.ToggleFlipsOnlyId | components/order/cart.ts:69-75 | `selected` flips on lines with the id; every other line and field is unchanged |
| Cart.ToggleTwiceRestores | components/order/cart.ts:69-75 | toggling the same id twice restores the cart |
| Cart.UnselectClearsSelection | components/order/cart.ts:78-82 | every line ends unselected and nothing else changes |
| Cart.UnselectIdempotent | components/order/cart.ts:78-82 | unselecting twice equals unselecting once |
| Cart.ToggleAndUnselectKeepWellFormed | components/order/cart.ts:69-82 | toggling and unselecting keep the cart well formed |
| Cart.AddThenDrain | components/order/cart.ts:19-59 | add 2 of a medicine, add 3 more (they merge into one line of 5), decrease five times: the cart is empty |
| Cart.UnselectThenToggle | components/order/cart.ts:19-82 | add two medicines, unselect all, toggle the first: two lines in order, only the first selected |
| JsArray.Filter | components/order/cart.ts:56 | `Array.prototype.filter`, never longer than its input; characterised by the `Filter…` lemmas |
| JsArray.FilterMembers | components/order/cart.ts:56 | `filter` keeps exactly the elements its test accepts |
| JsArray.FilterMultiset | components/order/cart.ts:56 | `filter` keeps every copy of an accepted value and no copy of a rejected one |
| JsArray.FilterIsSubsequence | components/order/cart.ts:56 | `filter` keeps the original order |
| JsArray.FilterAppend | components/order/cart.ts:56 | filtering a concatenation filters each part |
| JsArray.FilterAllKept | components/order/cart.ts:56 | a filter that accepts everything returns the list unchanged |
| JsArray.FilterAllButOne | components/order/cart.ts:63 | a filter that accepts all but possibly one position keeps everything else in place |
| JsArray.FilterKeepsUniqueBy | components/order/cart.ts:56 | filtering keeps a key unique |
| JsArray.Map | components/order/cart.ts:43-45 | `map` keeps the length and applies the function at each position |
| JsArray.MapKeepsUniqueBy | components/order/cart.ts:43-45 | a map that preserves a key keeps it unique |
| JsArray.FindIndex | components/order/cart.ts:22 | the first index satisfying the test, or -1 exactly when none does |
| JsArray.Slice | components/shop/Card.tsx:54 | `slice(start, end)` with bounds clamped to the length; at most `end - start` elements |
| JsArray.Distinct | components/shop/Card.tsx:30 | `Array.from(new Set(s))`: no duplicates, the same members as `s`, a subsequence of `s`, each value ahead of every value whose first occurrence in `s` comes later |
| JsArray.DistinctFromFirstOccurrenceOrder | components/shop/Card.tsx:30 | the values a `Set` collects come out in the order of their first occurrence |
| Shop.PresentManufacturers | components/shop/Card.tsx:30 | the non-empty manufacturers present on the medicines, each from some medicine |
| Shop.Manufacturers | components/shop/Card.tsx:29-32 | `manufacturers`: the present manufacturers de-duplicated with a `Set`; characterised by `ManufacturersAreTheNamesInUse` |
| Shop.ManufacturersAreTheNamesInUse | components/shop/Card.tsx:29-32 | the list has no duplicates and no empty entry; a name is in it iff some medicine has it as its manufacturer; names come in the order of their first appearance |
| Shop.Matches | components/shop/Card.tsx:36-46 | the four tests joined by "and": category, manufacturer, price, search |
| Shop.FilteredMedicines | components/shop/Card.tsx:35-48 | `filteredMedicines`: the catalog filtered by `Matches`; characterised by `FilteredIsOrderedSelection` |
| Shop.FilteredIsOrderedSelection | components/shop/Card.tsx:35-48 | the filtered list is an order-preserving subsequence, a medicine is kept iff it passes all four tests, and each kept medicine keeps all its copies |
| Shop.PriceBoundsInclusive | components/shop/Card.tsx:41-43 | for each of the four combinations of empty and filled boxes: an empty min means 0, an empty max means no upper bound, both bounds are inclusive |
| Shop.NeutralSettingPassesAll | components/shop/Card.tsx:37-45 | each neutral setting lifts its test on its own: tab "All", manufacturer "All", the empty search |
| Shop.SearchIsCaseInsensitiveSubstring | components/shop/Card.tsx:45 | the search test is a substring test on lower-cased name and term, unchanged by lower-casing either |
| Shop.NeutralFiltersKeepAll | components/shop/Card.tsx:37-45 | with tab and manufacturer "All", an empty search and empty price boxes, every medicine with a non-negative price is kept |
| Shop.TotalPages | components/shop/Card.tsx:51 | `ceil(n / 9)`: 0 for no items, otherwise the least page count covering n |
| Shop.PageOf | components/shop/Card.tsx:52-54 | `currentMedicines` for a page: `slice(page*9 - 9, page*9)`; characterised by `PageIsWindow` |
| Shop.PageIsWindow | components/shop/Card.tsx:52-54 | page p is the window `[(p-1)*9, p*9)` clamped to the list, so it has at most 9 items |
| Shop.PageInRangeIsNonEmpty | components/shop/Card.tsx:51-54 | every page from 1 to the page count shows at least one item |
| Shop.PagesArePrefix | components/shop/Card.tsx:52-54 | the first `count` pages concatenated are the list's first `count * 9` items |
| Shop.PagesCoverList | components/shop/Card.tsx:51-54 | concatenating pages 1 to the page count gives back the list |
| Shop.AllowedPageShowsItems | components/shop/Card.tsx:56-58 | a page the component can be on shows items whenever the list is non-empty |
| Shop.ImageSrc | components/shop/Card.tsx:150 | the image itself iff it starts with "http", otherwise "/" + image |
| Shop.ShopView.constructor | components/shop/Card.tsx:17-24 | starts with tab and manufacturer "All", an empty search, price box 0 to 1000, on page 1 |
| Shop.ShopView.CurrentMedicines | components/shop/Card.tsx:35-54 | the medicines shown: the current page of the list filtered by the current settings |
| Shop.ShopView.GoToPage | components/shop/Card.tsx:56-58 | the page becomes p only when 1 <= p <= page count, otherwise stays; the filters are unchanged |
| Shop.ShopView.SetSearchTerm | components/shop/Card.tsx:69-72 | sets the search term, changes no other filter, resets the page to 1 |
| Shop.ShopView.SetActiveTab | components/shop/Card.tsx:80-83 | sets the category tab, changes no other filter, resets the page to 1 |
| Shop.ShopView.SetManufacturer | components/shop/Card.tsx:97-100 | sets the manufacturer, changes no other filter, resets the page to 1 |
| Shop.ShopView.SetMinPrice | components/shop/Card.tsx:120-123 | sets the min box, changes no other filter, resets the page to 1 |
| Shop.ShopView.SetMaxPrice | components/shop/Card.tsx:130-133 | sets the max box, changes no other filter, resets the page to 1 |
| Proxy.Decide | proxy.ts:22-57 | the guard's decision, branch by branch in the source's order; characterised by `DecideFollowsAccessRule` |
| Proxy.DecideFollowsAccessRule | proxy.ts:22-57 | the decision is: signed out goes to /login; signed in under a path off-limits to the role goes to the role's area; otherwise pass |
| Proxy.OffLimitsByRole | proxy.ts:33-55 | admin is kept off /customer and /seller, customer off /admin and /seller, seller off /admin and /customer, any other role off nothing |
| Proxy.AreasExclusive | proxy.ts:33-55 | no path starts with two different role areas |
| Proxy.SignedOutGoesToLogin | proxy.ts:22-24 | a signed-out request goes to /login whatever the path |
| Proxy.LoginRedirectOnlyWhenSignedOut | proxy.ts:22-31 | the decision is a redirect to /login iff the request is signed out, so the /cart and /checkout signed-out branches never decide anything |
| Proxy.OtherRolesPass | proxy.ts:57 | a signed-in role that is none of the three always passes |
| Proxy.OwnAreaPasses | proxy.ts:33-57 | a signed-in role passes on any path under its own area |
| Proxy.CartAndCheckoutOpenWhenSignedIn | proxy.ts:26-31 | /cart and /checkout pass for every signed-in role |
| Proxy.PrefixTestIsRaw | proxy.ts:33-55 | the tests are raw prefixes: "/sellerX" is treated as the seller area and "/customerX" as the customer area |
| Proxy.Guarded | proxy.ts:60-71 | whether `config.matcher` selects the path; characterised by `GuardedPaths` |
| Proxy.Handle | proxy.ts:6-71 | what a request meets: the guard's decision on matched paths, pass-through elsewhere; see `NoRedirectLoop` |
| Proxy.GuardedPaths | proxy.ts:60-71 | the guard runs exactly on /customer, /admin, /seller and their sub-paths, /cart and /checkout |
| Proxy.NoRedirectLoop | proxy.ts:22-71 | whenever the guard redirects, it lets the same request through at the target |
| Proxy.LoginPageWouldLoop | proxy.ts:22-24 | without the matcher, a signed-out request for /login would be sent to /login again; the matcher lets it through |
| Proxy.GuardedPrefixIsSegment | proxy.ts:60-71 | on guarded paths, starting with a role's area means being the area or a path under it |
| Sidebar.RoutesFor | components/dashboard/Sidebar.tsx:19-31 | the route table for a role name; characterised by `RoutesByRole` |
| Sidebar.RoutesByRole | components/dashboard/Sidebar.tsx:19-31 | "ADMIN" selects 5 entries, "SELLER" 3, "CUSTOMER" 2; the list is non-empty iff the role is one of these exact strings |
| Sidebar.IsActive | components/dashboard/Sidebar.tsx:57 | an entry is active when the path equals its href or starts with href + "/"; see `ActiveIsSubtree` |
| Sidebar.ActiveIsSubtree | components/dashboard/Sidebar.tsx:57 | an exact match is active; active implies a prefix; active is transitive along nested entries |
| Sidebar.PrefixNeedsBoundary | components/dashboard/Sidebar.tsx:57 | "/administrator" starts with "/admin" but does not make "/admin" active |
| Sidebar.NestedEntriesBothActive | components/dashboard/Sidebar.tsx:57 | on /admin/users, exactly the first two admin entries, /admin and /admin/users, are active |
| Sidebar.SidebarLinksPassGuard | components/dashboard/Sidebar.tsx:19-31 | every sidebar link of a role is a page the request guard lets that role through to |
| Navbar.DashboardPath | components/common/NavbarClient.tsx:72-75 | /login without a user; otherwise "/" followed by the role, lower-cased |
| Navbar.LowerRoleIsArea | components/common/NavbarClient.tsx:74 | lower-casing each of the three role names gives that role's area |
| Navbar.DashboardPathIsOwnArea | components/common/NavbarClient.tsx:72-75 | a user's dashboard link is their role's area, which the request guard lets that role through to |
| Navbar.GetInitials | components/common/NavbarClient.tsx:77-84 | at most two characters, none a lower-case letter |
| Navbar.FirstLettersOfSplit | components/common/NavbarClient.tsx:78-81 | the first letters of the space-separated pieces are the characters that start a word; empty pieces contribute nothing |
| Navbar.InitialsAreWordStarts | components/common/NavbarClient.tsx:77-84 | the initials are the upper-cased word starts, cut to two |
| Navbar.WordStartsOfWord | components/common/NavbarClient.tsx:78-81 | a word followed by a space or the end starts only at its first letter |
| Navbar.SpacesThen | components/common/NavbarClient.tsx:78-81 | after a run of spaces the next character starts a word |
| Navbar.WordStartsOfTwoWords | components/common/NavbarClient.tsx:78-81 | two words separated by spaces start at their first letters |
| Navbar.InitialsOfTwoWords | components/common/NavbarClient.tsx:77-84 | two words separated by one or more spaces give their upper-cased first letters ("John Doe" gives "JD") |
| Navbar.VisibleAfterScroll | components/common/NavbarClient.tsx:89-93 | hidden iff scrolling down and past 50 |
| Navbar.NavbarState.constructor | components/common/NavbarClient.tsx:44-46 | starts with link 0 selected, visible, last scroll position 0 |
| Navbar.NavbarState.HandleLinkClick | components/common/NavbarClient.tsx:55-57 | sets the selected index and changes nothing else |
| Navbar.NavbarState.HandleScroll | components/common/NavbarClient.tsx:88-95 | visibility follows the hide rule against the previous position; the position becomes the new one; the selected link is kept |
| JsString.StartsWith | proxy.ts:33 | `String.prototype.startsWith` |
| JsString.Includes | components/shop/Card.tsx:45 | `String.prototype.includes`; characterised by `IncludesIffOccurs` |
| JsString.Join | components/common/NavbarClient.tsx:79 | the reference inverse of the `split(" ")` at this line (joining with the same one-character separator); `JoinSplit` proves the round trip. The `join("")` at line 81 is `Navbar.FirstLetters` |
| JsString.IncludesIffOccurs | components/shop/Card.tsx:45 | `includes` holds iff the term occurs at some position |
| JsString.ToLower | components/shop/Card.tsx:45 | same length, each character lower-cased, no upper-case letter left |
| JsString.ToUpper | components/common/NavbarClient.tsx:82 | same length, each character upper-cased, no lower-case letter left |
| JsString.ToLowerIdempotent | components/shop/Card.tsx:45 | lower-casing twice equals lower-casing once |
| JsString.Split | components/common/NavbarClient.tsx:79 | at least one piece, none containing the separator |
| JsString.JoinSplit | components/common/NavbarClient.tsx:79 | joining the pieces with the separator gives back the string |
| JsString.StartsWithTransitive | proxy.ts:33-55 | a prefix of a prefix is a prefix |

## Left out

- `localStorage` and JSON: the entry is a field. Quota errors, disabled storage and other tabs writing the entry are not modelled. The model also leaves out the malformed-text case, where `JSON.parse` throws in `getCart`.
- `crypto.randomUUID`: `AddToCart` takes the new line's id as a parameter and requires that no line already has it.
- Cart.CartStore.AddToCart: the source mutates the found line object in place (`existing.quantity += …`) and pushes onto the array it read. The model computes the new list as a value, so it does not capture aliasing between the list and its lines. Nothing outside the call sees that array.
- The session lookup in `proxy.ts` (`userService.getSession`, lines 12-19) and its logging are not part of this model. The sign-in flag and the role are inputs to `Decide`.
- The `Roles` constants file is not part of this model. The role is the enumeration `Admin | Customer | Seller | OtherRole(name)`. Lemmas that link the guard to the sidebar and the navbar map "ADMIN", "SELLER" and "CUSTOMER" to the three roles.
- Sidebar.SidebarLinksPassGuard and Navbar.DashboardPathIsOwnArea rest on that mapping, which is an assumption: the values of `Roles.admin`, `Roles.seller` and `Roles.customer` are not shown, and the comment at `proxy.ts:16` names the roles "admin, user, seller".
- Prices are integers and the min and max boxes are optional integers. `None` is an empty box. Floating point, `Number` parsing of arbitrary text, `NaN` and `Infinity` arithmetic are left out.
- Shop.NeutralFiltersKeepAll: stated for medicines with non-negative prices, because an empty min box means 0, which excludes a negative price.
- `toLowerCase`/`toUpperCase` map ASCII letters only. Unicode case mapping is left out.
- Navbar.GetInitials: a Dafny string is a sequence of Unicode scalar values, but JavaScript indexes UTF-16 code units. For a name whose word starts with a character outside the Basic Multilingual Plane, `n[0]` and `slice(0, 2)` in the source take single surrogate halves, while the model takes whole characters ("😀 Doe" gives a lone surrogate then "D" in the source, and "😀D" in the model).
- Window, scroll events and listener registration are not modelled. `HandleScroll` takes `window.scrollY` as an integer parameter.
- The image falsy check that renders "No Image" instead of a picture (`components/shop/Card.tsx:148`) is left out. `ImageSrc` is the URL used when there is an image.
- JSX rendering, React hooks and memoisation, routing, logout (`handleLogout`), and the category-tab list built from the categories prop are left out.
- The services, the auth and contact forms, and the purely presentational components are not part of this model: they hold no logic beyond requests and layout.
- The `MostPopular` carousel is left out because its index comes from floating-point scroll widths and DOM timers. The FAQ open/close toggle is left out because it is a single-index update.
