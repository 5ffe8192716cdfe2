# Shami Global Shop — the storefront's rules, modelled in Dafny

Shami Global Shop is a multi-seller storefront built as a React web application. Buyers browse
products, keep a cart, and send each seller an order over WhatsApp. Sellers register, edit
their profile and manage their products. Most of the code wires screens to the hosted backend.
Inside those screens sit small, deterministic rules, and this project states them in Dafny
and proves properties about them:

- `CartProvider`: the cart as an ordered list of entries, with add, remove, set-quantity and
  clear. The class `Cart` holds the list. Its methods keep ids distinct and quantities positive.
- `CartPage`: grouping the cart by seller, per-seller subtotals and the grand total. It also
  builds the WhatsApp order message and the `https://wa.me/` link.
- `Storefront`: loading products with the price default, the category and search filter, the
  three-way sort, the banner carousel index, and the cart badge.
- `RegisterForm`: the five-rule password checker and the registration check chain. The class
  `Registration` holds the form state.
- `ProfileForm` and `ProductForm`: the seller forms' submit logic, their required-field and
  leading-zero checks, which image address is saved, and their field defaults and resets.
- `DashboardStats`: product, order and sales totals.
- `ProductCard`: the product card's WhatsApp link, its image fallback and the delete
  confirmation state.
- `ProfileDisplay`: the public profile's fallbacks and WhatsApp link.
- `Common`: shared helpers. These are optional values, JavaScript's `x || default` on strings,
  `replace` with a string pattern (only the first match), ASCII lower-casing, `includes`, and
  decimal printing.

Calls into libraries and services are passed in as parameters:

- the image host's upload result is an `Option<string>`, where an absent or empty address
  means failure;
- `encodeURIComponent`, `toLocaleString` and `parseFloat` are functions the caller supplies;
- the auth service's availability is a boolean.

## Model

| member | source | states |
|---|---|---|
| CartProvider.IndexOf | src/app/providers/CartProvider.jsx:74 | `findIndex`: -1 exactly when the id is absent, otherwise the first position holding it |
| CartProvider.Added | src/app/providers/CartProvider.jsx:72-88 | the list `addToCart` produces; AddNewAppends, AddExistingIncrements and AddPreservesWellFormed state what it is |
| CartProvider.FindIndex | src/app/providers/CartProvider.jsx:74 | the scan returns the first index with the id, or -1 |
| CartProvider.WithoutId | src/app/providers/CartProvider.jsx:90-91 | `filter` result is an order-preserving subsequence that keeps every entry with another id exactly as often, and drops every entry with the id |
| CartProvider.WithQuantity | src/app/providers/CartProvider.jsx:108-111 | `map` keeps the length; an entry with the id gets the new quantity, every other entry is unchanged |
| CartProvider.QuantityUpdated | src/app/providers/CartProvider.jsx:105-117 | the list `updateQuantity` produces; NonPositiveQuantityRemoves, WithQuantity and SetQuantityPreservesWellFormed state what it is |
| CartProvider.AddNewAppends | src/app/providers/CartProvider.jsx:73-82 | an absent id is appended at the end with quantity 1; the length grows by one |
| CartProvider.AddExistingIncrements | src/app/providers/CartProvider.jsx:73-80 | a present id bumps that entry's quantity by 1; the length and all other entries are unchanged |
| CartProvider.AddPreservesWellFormed | src/app/providers/CartProvider.jsx:72-88 | adding keeps ids distinct and quantities positive |
| CartProvider.DistinctCons | src/app/providers/CartProvider.jsx:72-117 | distinct ids of a list with a head: the tail is distinct and does not hold the head's id |
| CartProvider.WithoutIdKeepsOnlyPresentIds | src/app/providers/CartProvider.jsx:90-91 | every id left after a removal was in the cart and is not the removed id |
| CartProvider.WithoutIdKeepsEntries | src/app/providers/CartProvider.jsx:90-91 | every entry left after a removal was in the cart and has another id |
| CartProvider.RemovePreservesDistinct | src/app/providers/CartProvider.jsx:90-91 | removal keeps ids distinct |
| CartProvider.RemovePreservesWellFormed | src/app/providers/CartProvider.jsx:90-96 | removal keeps ids distinct and quantities positive |
| CartProvider.RemoveAbsentIsIdentity | src/app/providers/CartProvider.jsx:90-91 | removing an id not in the cart leaves the cart unchanged |
| CartProvider.SetQuantityPreservesWellFormed | src/app/providers/CartProvider.jsx:108-111 | a positive quantity keeps ids distinct and quantities positive |
| CartProvider.NonPositiveQuantityRemoves | src/app/providers/CartProvider.jsx:105-107 | a quantity of zero or less has exactly the effect of removing the id |
| CartProvider.Cart.constructor | src/app/providers/CartProvider.jsx:11 | the cart starts empty and well-formed |
| CartProvider.Cart.AddToCart | src/app/providers/CartProvider.jsx:72-88 | the new list is the bumped or appended list; a well-formed cart stays well-formed |
| CartProvider.Cart.RemoveItem | src/app/providers/CartProvider.jsx:90-96 | the new list is the filtered list, no entry has the id, and a well-formed cart stays well-formed |
| CartProvider.Cart.ClearCart | src/app/providers/CartProvider.jsx:98-103 | the cart becomes empty |
| CartProvider.Cart.UpdateQuantity | src/app/providers/CartProvider.jsx:105-117 | zero or less removes the id, otherwise the entries with the id get the quantity; a well-formed cart stays well-formed |
| CartPage.GroupIndex | src/app/cart/page.jsx:408 | the position of the seller's group, or -1 exactly when no group has that seller |
| CartPage.Push | src/app/cart/page.jsx:408 | one step of the grouping `reduce`; PushKeepsDistinctKeys, PushKeepsGroupsHold and PushKeepsKeysAreSellers state what it keeps |
| CartPage.Grouped | src/app/cart/page.jsx:407-410 | `groupedItems`; GroupedIsPartition states that it partitions the cart by seller |
| CartPage.GroupBySeller | src/app/cart/page.jsx:407-410 | the `reduce` loop produces the grouping function's result |
| CartPage.ItemsOfSellerSnoc | src/app/cart/page.jsx:407-410 | one more item joins the end of its own seller's items and no other seller's |
| CartPage.ItemsOfAbsentSeller | src/app/cart/page.jsx:407-410 | a seller with no item in the cart has no items |
| CartPage.HasSellerSnoc | src/app/cart/page.jsx:407-410 | a seller is in the extended cart exactly when it was before or is the new item's seller |
| CartPage.PushKeepsDistinctKeys | src/app/cart/page.jsx:408 | pushing an item never creates a second group for a seller |
| CartPage.PushKeepsGroupsHold | src/app/cart/page.jsx:408 | after a push every group holds exactly its seller's items, in cart order |
| CartPage.PushKeepsKeysAreSellers | src/app/cart/page.jsx:408 | after a push every group key is a seller of some item |
| CartPage.GroupedIsPartition | src/app/cart/page.jsx:407-410 | grouping is a partition: one group per seller, each holding exactly that seller's items in cart order |
| CartPage.GroupIndexSnoc | src/app/cart/page.jsx:408 | a seller has a group after appending one exactly when it had one before or is the appended group's seller |
| CartPage.GroupIndexKeyUpdate | src/app/cart/page.jsx:408 | replacing a group's items without changing its seller leaves every lookup unchanged |
| CartPage.GroupedEmptyIff | src/app/cart/page.jsx:407-410 | there are no groups exactly when the cart is empty, so the empty-state branch is taken |
| CartPage.SubtotalAppend | src/app/cart/page.jsx:412-415 | the sum of `price * quantity` over two lists joined is the sum of the two sums |
| CartPage.Subtotal | src/app/cart/page.jsx:510-513 | `shopSubtotal`, the sum of `price * quantity`; SubtotalAppend and GrandTotalIsSumOfSubtotals state its properties |
| CartPage.SumOfSubtotalsSnoc | src/app/cart/page.jsx:510-513 | the sum of subtotals over one more group adds that group's subtotal |
| CartPage.SumOfSubtotalsUpdate | src/app/cart/page.jsx:510-513 | replacing one group changes the sum of subtotals by the difference of the two subtotals |
| CartPage.GrandTotalIsSumOfSubtotals | src/app/cart/page.jsx:412-415 | the grand total equals the sum of the per-seller subtotals |
| CartPage.SellerNumber | src/app/cart/page.jsx:419-420 | an unknown seller, and a known seller whose number is missing or empty, get the fallback `256XXXXXXXXX`; a known seller with a non-empty number gets that number |
| CartPage.SellerStoreName | src/app/cart/page.jsx:421 | an unknown seller, and a known seller whose store name is missing or empty, get `Unknown Store`; a known seller with a non-empty store name gets it |
| CartPage.ItemLinesSnoc | src/app/cart/page.jsx:427-431 | the item lines grow by one line per item, in item order |
| CartPage.OrderMessage | src/app/cart/page.jsx:423-434 | the order text; OrderMessageShape and ItemLinesSnoc state its layout |
| CartPage.OrderLink | src/app/cart/page.jsx:436 | the chat address; GenerateWhatsAppLink is proved equal to it and StripFirstPlusRemovesFirstOnly states the number's `+` handling |
| CartPage.OrderStep | src/app/cart/page.jsx:425-433 | each loop step keeps `subtotal` equal to the shop subtotal of the items so far, and `message` equal to the greeting plus their lines |
| CartPage.GenerateWhatsAppLink | src/app/cart/page.jsx:418-437 | the link is `https://wa.me/`, then the number with its first `+` removed, then `?text=` and the encoded message |
| CartPage.OrderMessageShape | src/app/cart/page.jsx:423-434 | the message opens with the greeting naming the store and ends with the total line and the delivery prompt |
| Storefront.LoadedPrice | src/app/page.jsx:205 | a missing or zero price becomes 15000; any other price is kept |
| Storefront.LoadProduct | src/app/page.jsx:202-207 | a loaded product keeps id, name, seller and colour, has the defaulted price, and keeps a truthy category or takes one from the category list |
| Storefront.MatchesSearch | src/app/page.jsx:231-236 | matches exactly when the term is empty or the lower-cased term is a substring of the lower-cased name, store name or colour |
| Storefront.MatchesCategory | src/app/page.jsx:230 | the category test; FilterProducts and FilterAllKeepsEverything state its effect on the list |
| Storefront.FilterProducts | src/app/page.jsx:229-238 | the filtered list is an order-preserving subsequence that keeps exactly the matching products, each as often as in the input |
| Storefront.FilterAllKeepsEverything | src/app/page.jsx:230-231 | with category `All` and an empty term nothing is filtered out |
| Storefront.ParseSortOption | src/app/page.jsx:241-249 | the two price options are recognised exactly by their labels; every other value sorts by id |
| Storefront.LexLeTotal | src/app/page.jsx:247 | the id order compares every two ids |
| Storefront.LexLeTransitive | src/app/page.jsx:247 | the id order is transitive |
| Storefront.InOrderTotal | src/app/page.jsx:241-249 | each of the three sort orders compares every two products |
| Storefront.InOrderTransitive | src/app/page.jsx:241-249 | each of the three sort orders is transitive |
| Storefront.SortedCons | src/app/page.jsx:241-249 | a sorted list with a head that precedes every element is sorted |
| Storefront.Insert | src/app/page.jsx:240-250 | inserting into a sorted list gives a sorted list holding one more copy of the product |
| Storefront.SortProducts | src/app/page.jsx:240-250 | the sorted list is sorted and is a permutation of its input |
| Storefront.ShownProducts | src/app/page.jsx:229-250 | `sortedProducts`; ShownProductsSpec states what it holds and in which order |
| Storefront.ShownProductsSpec | src/app/page.jsx:229-250 | the shown list holds exactly the matching products: price non-decreasing for `Price: Low to High`, non-increasing for `Price: High to Low`, id descending otherwise |
| Storefront.BannerSteps | src/app/page.jsx:156-173 | next and previous keep the index in `[0, n)`, and each undoes the other |
| Storefront.NextBanner | src/app/page.jsx:163-167 | `goToNextBanner`; BannerSteps states its range and that previous undoes it |
| Storefront.PrevBanner | src/app/page.jsx:169-173 | `goToPreviousBanner`; BannerSteps states its range and that next undoes it |
| Storefront.AfterTicks | src/app/page.jsx:153-161 | the index after repeated interval ticks; AfterTicksIsModulo states its value |
| Storefront.AfterTicksIsModulo | src/app/page.jsx:153-161 | after `t` interval ticks from 0 the index is `t mod n` |
| Storefront.BadgeCount | src/app/page.jsx:294-297 | the badge sum; BadgeCountSnoc, AddRaisesBadgeByOne and BadgeAtLeastEntries state its properties |
| Storefront.BadgeCountSnoc | src/app/page.jsx:296 | the badge grows by the quantity of an entry added at the end |
| Storefront.BadgeCountUpdate | src/app/page.jsx:296 | replacing an entry changes the badge by the difference of the quantities |
| Storefront.AddRaisesBadgeByOne | src/app/page.jsx:294-297 | adding a product to the cart raises the badge count by exactly one |
| Storefront.BadgeAtLeastEntries | src/app/page.jsx:294-297 | with positive quantities the badge is at least the number of entries and positive whenever it is shown |
| RegisterForm.Messages | src/app/components/auth/RegisterForm.jsx:39-55 | one message per failed rule, in the order of the rules |
| RegisterForm.PasswordErrors | src/app/components/auth/RegisterForm.jsx:38-56 | what `validatePassword` returns; PasswordErrorsEmptyIffStrong and PasswordErrorsShape state its meaning |
| RegisterForm.CollectStep | src/app/components/auth/RegisterForm.jsx:39-55 | each check adds its rule exactly when the password fails it |
| RegisterForm.MessagesSnoc | src/app/components/auth/RegisterForm.jsx:39-55 | a pushed rule appends its message at the end |
| RegisterForm.ValidatePassword | src/app/components/auth/RegisterForm.jsx:38-56 | the five checks, run in order and pushing onto `errors`, produce exactly the messages of the failed rules, with the length counted in UTF-16 code units |
| RegisterForm.CollectIsFailing | src/app/components/auth/RegisterForm.jsx:39-55 | the accumulating check sequence equals the rules filtered by failure |
| RegisterForm.FailingEmptyIff | src/app/components/auth/RegisterForm.jsx:38-56 | no rule fails exactly when the password satisfies every rule |
| RegisterForm.FailingIsSubseq | src/app/components/auth/RegisterForm.jsx:39-55 | the failed rules keep the fixed rule order |
| RegisterForm.RuleInFailing | src/app/components/auth/RegisterForm.jsx:39-55 | a rule is reported exactly when it is checked and the password fails it |
| RegisterForm.FailedRulesAreFailing | src/app/components/auth/RegisterForm.jsx:38-56 | the checker reports exactly the failing rules, in order |
| RegisterForm.PasswordErrorsEmptyIffStrong | src/app/components/auth/RegisterForm.jsx:38-56 | no errors exactly when the password is 8 or more UTF-16 code units long (JavaScript's `length`), and has an uppercase and a lowercase letter, a digit and a special character |
| RegisterForm.AstralCharactersCountTwice | src/app/components/auth/RegisterForm.jsx:41 | a six-character password with two characters above U+FFFF has length 8 and gets no errors |
| RegisterForm.MessagesKeepSubseq | src/app/components/auth/RegisterForm.jsx:39-55 | messages of an order-preserving selection of rules are an order-preserving selection of the messages |
| RegisterForm.MessageInjective | src/app/components/auth/RegisterForm.jsx:40-54 | different rules have different messages |
| RegisterForm.PasswordErrorsShape | src/app/components/auth/RegisterForm.jsx:38-56 | at most five errors, in the fixed order length, upper, lower, digit, special; a rule's message appears exactly when the password fails it |
| RegisterForm.MessageReportedIffFails | src/app/components/auth/RegisterForm.jsx:39-55 | a rule's message is reported exactly when the password fails that rule |
| RegisterForm.MessageInIffRuleIn | src/app/components/auth/RegisterForm.jsx:39-55 | a rule's message is in the list of messages exactly when the rule is in the list of rules |
| RegisterForm.SomeErrorIffWeak | src/app/components/auth/RegisterForm.jsx:258 | the error list is non-empty, and so the submit button is disabled, exactly when the password is not strong |
| RegisterForm.DecideAcceptsExactly | src/app/components/auth/RegisterForm.jsx:74-116 | registration proceeds exactly when auth is available, no field is empty, the password is strong and the number has no leading zero; the record holds the store name and code + number |
| RegisterForm.DecideFirstFailure | src/app/components/auth/RegisterForm.jsx:74-104 | the first failing check decides the outcome: missing auth, then empty fields, then password errors, then leading zero |
| RegisterForm.LeadingZeroRejected | src/app/components/auth/RegisterForm.jsx:99-104 | a contact number starting with `0` is never accepted |
| RegisterForm.Decide | src/app/components/auth/RegisterForm.jsx:74-110 | the check chain of `handleRegister`; DecideAcceptsExactly and DecideFirstFailure state its outcomes |
| RegisterForm.Registration.constructor | src/app/components/auth/RegisterForm.jsx:24-31 | fields start empty, with contact code `+256` |
| RegisterForm.Registration.HandlePasswordChange | src/app/components/auth/RegisterForm.jsx:58-62 | the password and its error list are updated, nothing else changes, and submit is disabled exactly while loading or while the password has errors |
| RegisterForm.Registration.HandleRegister | src/app/components/auth/RegisterForm.jsx:68-134 | the outcome is the check chain's decision; the error text matches it and loading ends false |
| ProfileForm.Initial | src/app/components/seller/ProfileForm.jsx:25-37 | without stored data every field defaults to `''` |
| ProfileForm.InitialSeedsFields | src/app/components/seller/ProfileForm.jsx:25-37 | with stored data each field is seeded with its stored value, or `''` when missing |
| ProfileForm.LeadingZeroStops | src/app/components/seller/ProfileForm.jsx:174-179 | a WhatsApp value starting with `0` stops the submit with the leading-zero error |
| ProfileForm.SubmitSaves | src/app/components/seller/ProfileForm.jsx:168-214 | the profile is saved exactly when there is no leading zero, every chosen file uploaded, and a save callback exists; the saved record carries the fields, the user id, and each image's new upload or stored address |
| ProfileForm.FailedUploadStops | src/app/components/seller/ProfileForm.jsx:184-198 | an upload yielding no address stops the submit before anything is saved |
| ProfileForm.Submit | src/app/components/seller/ProfileForm.jsx:168-214 | `handleSubmit` on the form's values; LeadingZeroStops, SubmitSaves and FailedUploadStops state its outcomes |
| ProfileForm.Editor.constructor | src/app/components/seller/ProfileForm.jsx:25-45 | the fields start from the stored data or `''`, with no files chosen |
| ProfileForm.Editor.LoadInitialData | src/app/components/seller/ProfileForm.jsx:60-71 | stored data reloads every field and preview; without it nothing changes |
| ProfileForm.Editor.HandleSubmit | src/app/components/seller/ProfileForm.jsx:168-214 | the outcome is the submit decision; the WhatsApp error is set exactly on a leading zero, loading ends false, the fields are untouched |
| ProductForm.RequiredFieldsFirst | src/app/components/seller/ProductForm.jsx:131-139 | the submit is rejected first, exactly when name, price or category is empty |
| ProductForm.NewProductNeedsImage | src/app/components/seller/ProductForm.jsx:170-178 | a new product with the fields filled in but no image file is rejected; a new product is only added with a file |
| ProductForm.UpdateKeepsImage | src/app/components/seller/ProductForm.jsx:142-167 | an update happens exactly when the fields are filled, the stored product has an id and any chosen file uploaded; it writes the form's fields and the new upload or else the stored image unchanged |
| ProductForm.AddCarriesSeller | src/app/components/seller/ProductForm.jsx:168-195 | an add happens exactly when the fields are filled, there is no stored id, a file was chosen and uploaded; the record carries the seller id, the fields and the uploaded address |
| ProductForm.Submit | src/app/components/seller/ProductForm.jsx:126-225 | `handleSubmit` on the form's values; RequiredFieldsFirst, NewProductNeedsImage, UpdateKeepsImage and AddCarriesSeller state its outcomes |
| ProductForm.ToastText | src/app/components/seller/ProductForm.jsx:131-208 | the notice each outcome shows; Editor.HandleSubmit sets it |
| ProductForm.Editor.constructor | src/app/components/seller/ProductForm.jsx:38-45 | every field starts empty with no file chosen |
| ProductForm.Editor.ResetFromInitialData | src/app/components/seller/ProductForm.jsx:66-82 | stored data loads each field or `''` and clears the file; without it every field is cleared |
| ProductForm.Editor.HandleImageChange | src/app/components/seller/ProductForm.jsx:84-90 | a chosen file is recorded and its local address becomes the preview; otherwise nothing changes |
| ProductForm.Editor.HandleSubmit | src/app/components/seller/ProductForm.jsx:126-225 | the outcome is the submit decision and the notice is its text; after an add every field is empty and the file cleared, otherwise the fields are untouched; loading ends false |
| DashboardStats.Count | src/app/components/seller/DashboardStats.jsx:14-15 | the product or order count, or 0 when the list is absent |
| DashboardStats.OrderAmount | src/app/components/seller/DashboardStats.jsx:17 | a missing `totalPrice` counts as 0 |
| DashboardStats.SalesSum | src/app/components/seller/DashboardStats.jsx:17 | the summing `reduce`; SalesSumIsSum states it equals the plain sum of the amounts |
| DashboardStats.TotalSales | src/app/components/seller/DashboardStats.jsx:17 | `totalSales`; TotalSalesSteps states its empty and append cases |
| DashboardStats.SumFromRightAppend | src/app/components/seller/DashboardStats.jsx:17 | the reference sum over two lists joined is the sum of the two sums |
| DashboardStats.SalesSumIsSum | src/app/components/seller/DashboardStats.jsx:17 | the left `reduce` equals the reference sum of the order amounts |
| DashboardStats.SalesSumAppend | src/app/components/seller/DashboardStats.jsx:17 | the sales sum over two lists joined is the sum of the two sums |
| DashboardStats.TotalSalesSteps | src/app/components/seller/DashboardStats.jsx:17 | absent or empty orders give 0 sales, and appending an order adds exactly its defaulted amount |
| DashboardStats.SalesBounds | src/app/components/seller/DashboardStats.jsx:17 | with non-negative amounts the sales total is non-negative and at least every single order's amount |
| ProductCard.ImageSrc | src/app/components/seller/ProductCard.jsx:14 | an empty or missing image falls back to the placeholder address |
| ProductCard.WhatsappUrl | src/app/components/seller/ProductCard.jsx:15-17 | the chat address; WhatsappUrlShape states its exact form |
| ProductCard.WhatsappUrlShape | src/app/components/seller/ProductCard.jsx:15-17 | a falsy number gives `#`; otherwise `https://wa.me/` + the number without its first `+` (only the first) + the greeting + the encoded product name |
| ProductCard.StepKeepsConsistent | src/app/components/seller/ProductCard.jsx:19-41 | an enabled step never leaves the modal open while deleting; cancel and confirm close the modal, confirm starts deleting |
| ProductCard.Step | src/app/components/seller/ProductCard.jsx:19-41 | one delete-flow event; StepKeepsConsistent states its effect |
| ProductCard.Run | src/app/components/seller/ProductCard.jsx:19-41 | a sequence of events; RunKeepsConsistent states what it keeps |
| ProductCard.RunKeepsConsistent | src/app/components/seller/ProductCard.jsx:19-41 | any sequence of delete-flow events keeps the modal closed while deleting |
| ProductCard.DeleteControls.constructor | src/app/components/seller/ProductCard.jsx:11-12 | the modal starts closed, nothing is being deleted and the delete button is enabled |
| ProductCard.DeleteControls.OpenDeleteModal | src/app/components/seller/ProductCard.jsx:34-37 | reached through the enabled delete button; opening shows the modal, and consistency is kept |
| ProductCard.DeleteControls.CloseDeleteModal | src/app/components/seller/ProductCard.jsx:39-41 | cancelling hides the modal, and consistency is kept |
| ProductCard.DeleteControls.ConfirmDelete | src/app/components/seller/ProductCard.jsx:19-21 | confirming hides the modal, marks the product as being deleted and disables the delete button |
| ProductCard.DeleteControls.DeleteSettled | src/app/components/seller/ProductCard.jsx:29-31 | when the delete settles the deleting mark is cleared and the delete button is enabled again |
| ProfileDisplay.WhatsappUrl | src/app/components/seller/ProfileDisplay.jsx:25-27 | there is no link exactly when the number is falsy |
| ProfileDisplay.Render | src/app/components/seller/ProfileDisplay.jsx:16-22 | no profile renders the placeholder and nothing else |
| ProfileDisplay.RenderFallbacks | src/app/components/seller/ProfileDisplay.jsx:36-53 | missing image, description and location show the placeholder avatar, `No description provided.` and `Not provided.`; present ones are shown |
| ProfileDisplay.RenderWhatsapp | src/app/components/seller/ProfileDisplay.jsx:25-59 | a link exists exactly when the number is truthy, and it is `https://wa.me/` + the number without its first `+`; a missing number shows `Not provided` |
| Common.OrDefault | src/app/components/seller/ProfileDisplay.jsx:50 | `x \|\| fallback` on an optional string: the value when truthy, the fallback otherwise |
| Common.Utf16Length | src/app/components/auth/RegisterForm.jsx:41 | JavaScript's `length`: at least the character count and at most twice it |
| Common.Utf16LengthIsCountInBmp | src/app/components/auth/RegisterForm.jsx:41 | the `length` equals the character count exactly when no character lies above U+FFFF |
| Common.SubseqNoLonger | src/app/components/auth/RegisterForm.jsx:39-55 | an order-preserving selection of the checks is never longer than the list of checks, which bounds the error count |
| Common.StripFirstPlusRemovesFirstOnly | src/app/cart/page.jsx:436 | `replace("+", "")` removes exactly the first `+` and leaves a string without `+` unchanged |
| Common.Lower | src/app/page.jsx:232-235 | lower-casing keeps the length and maps each character, changing only `A`–`Z` |
| Common.IncludesIffOccurs | src/app/page.jsx:232-235 | `includes` holds exactly when the term occurs at some position |
| Common.IntStringShape | src/app/cart/page.jsx:430 | the printed quantity in an item line has a `-` exactly when negative, and digits everywhere else |

## Left out

- The backend: the auth-state listener, snapshot subscriptions and the document reads and writes
  (`setDoc`, `addDoc`, `updateDoc`, `deleteDoc`). Writes are taken to succeed, so the `catch`
  branches that show "failed" toasts are not modelled. This also drops the cart's backend and
  local-storage sync (src/app/providers/CartProvider.jsx:16-70).
- The image upload is a network call. Its result is an `Option<string>` parameter. In the product
  form the host's error text is a string parameter too. The profile form's upload notices are
  not modelled.
- `encodeURIComponent`, `toLocaleString` and `parseFloat` are library calls. They are function
  parameters with no properties assumed, and prices are whole numbers (`int`).
- Storefront.InOrder: `localeCompare` on ids is replaced by code-unit lexicographic order. That
  order is total and transitive, but it is not the locale's collation.
- Storefront.MatchesSearch: `toLowerCase` is modelled on ASCII letters only; other scripts'
  case mappings are not modelled.
- Storefront.MatchesSearch: a product whose seller record exists but has no store name makes the
  source throw on `toLowerCase`. The model requires a store name in every seller record, so this
  crash is not modelled.
- Storefront.SortProducts: the result is sorted and a permutation of its input, but equal
  elements' relative order (the stability of `Array.prototype.sort`) is not stated.
- `shuffleArray` and the random fallback category use `Math.random`. The shuffle is left out, and
  the random pick is a parameter of `LoadProduct`.
- The category bar's scroll centring reads DOM geometry and is left out.
- Timers are modelled only as a tick count (`AfterTicks`). Toast visibility, `window.open`, router
  redirects, the clipboard and modal key handling are left out.
- CartProvider.Cart.AddToCart: the source's spread copies the array but not the entries, so the
  found entry object is mutated in place and shared with the old list. The model updates by value,
  so it does not capture that aliasing.
- The commented-out older cart page (src/app/cart/page.jsx:1-334) is dead code.
- src/app/seller/profile/page.jsx is not part of this model. Its inline form repeats the profile
  form's submit without the leading-zero check.
- RegisterForm.Registration.HandleRegister: the auth service's user id, its stored email and the
  creation time are outside the model. The seller record holds the store name and the WhatsApp
  number only. The Google sign-in handler is left out, since it only shows a message.
- ProfileForm.Editor.HandleSubmit: the `onSave` callback is a boolean (present or absent); what it
  does with the record is outside this component. The drag-and-drop and file-picker handlers of
  the profile form are not modelled.
- CartPage.Grouped: groups come in order of first appearance, as the page lists them with
  `Object.keys` (src/app/cart/page.jsx:507) for seller ids that are not integer-like. An object
  lists integer-like keys first, in ascending order, and the model does not capture that order.
- ProductForm.ProductData: the stored price is a string, but the source stores the number from
  `parseFloat`. A stored `0` or `NaN` becomes `''` under `initialData.price || ''`, and the
  submit then rejects it as a missing field. The model cannot represent such a stored value.
- ProductForm.Editor.HandleSubmit: an upload whose response carries no address leaves the
  uploader's success notice in the source. The model shows the failure notice for every failed
  upload, and the notices shown while an upload is in progress are not modelled.
- ProductForm.Editor.HandleSubmit: the `onSubmit` callback is called after a successful write and
  is outside the model.
