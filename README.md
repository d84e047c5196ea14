# FrozenGoods storefront: the client-side logic, in Dafny

FrozenGoods is a React storefront for frozen foods. This project models the
logic that its frontend runs in the browser and proves properties about it.
Each source file has its own module:

- **Cart store** (`CartContext`): `cartReducer`, a pure transition function
  over the list of cart lines. It merges on add, removes by filter, sets a
  quantity, clears, and ignores every other action. The model also proves
  that no reachable cart holds two lines for the same product.
- **Cart page** (`CartView`): the running total, a left `reduce` proved equal
  to the sum of price times quantity; the total after each reducer action;
  when "Place Order" is enabled; and the order body.
- **Product grid** (`ProductList`): the per-product quantity selector (a
  dictionary with a `|| 1` default) and "Add to Cart", which dispatches the
  chosen quantity and resets the selector to 1.
- **Filters** (`Filter`): the brand and category selection, kept in the query
  parameters as comma-joined ids. Covers writing and reading it back, the
  checkbox toggle, the modal's case-insensitive search, the category request's
  query string and "Clear All".
- **Registration and login forms** (`InputRules`, `Register`, `Login`):
  - the phone field's digit sanitiser and 10-digit cap;
  - the phone rule, stated directly (10 digits, the first 6 to 9) and proved
    equal to a matcher for the `^[6-9]\d{9}$` pattern;
  - the password and name rules;
  - the per-field error messages;
  - the request bodies, whose number carries a "+91" prefix.
- **Add-product form** (`AddProduct`): the tag parser
  (trim, split on ',', drop empty pieces), the required-field guard and
  the seven multipart fields, appended in order.
- **Demo authentication card** (`AuthFormModel`): a three-state machine
  (login, register, one-time-password entry) with its handlers, footer link
  and heading.
- **Route guard** (`ProtectedRoutes`): loading placeholder, redirect to
  `/auth`, or the protected content.
- **Brand strip** (`BrandScroll`): render precedence, the first four brands
  until "See More", and the brand link path.

`JsStrings` models the JavaScript string and array operations the code
relies on. Characters are Unicode scalar values, and the whitespace and
case mapping are ASCII only (see "## Left out"):
- `length`, which counts UTF-16 code units, so a character beyond U+FFFF
  counts twice;
- `split` on the empty string gives `[""]`;
- `join`;
- `filter(Boolean)`;
- `trim`;
- `toLowerCase`;
- `includes`.

`Wrappers` holds `Option`.

Pure code is modelled as datatypes, functions and lemmas. Component state
that handlers update (the quantity selector, both login/registration forms,
the authentication card, the brand strip's `showAll` flag) is modelled as
classes with `modifies` clauses. The add-product submit handler, which builds
its form data one `append` at a time, is a method.

Prices and quantities are integers: whole money units and whole items.
Some behaviour a reader might expect is absent from the code, and the model
follows the code:
- The reducer keeps a line whose quantity is set to 0, and stores any number
  it is given, negative ones included (`UpdateSetsExactly`).
- The reducer never reads the snapshot's `stockQuantity`, which each line
  carries, and never clamps a quantity to it: merging repeated adds of the
  same product can take a line past the stock (`RepeatedAddFrom`). Nor does
  it remove a line whose quantity falls to 0 or below. The stock is read
  only by the views: the number inputs' `min`/`max` bounds and the disabled
  Add to Cart button (see "## Left out").
- The cart page computes no item count (summed quantities); it only checks
  for an empty line list to enable "Place Order".

## Model

| member | source | states |
|---|---|---|
| JsStrings.Utf16Length | frontend/src/components/demo-register.tsx:46 | `length` in UTF-16 code units: at least the number of characters and at most twice it |
| JsStrings.Utf16LengthBasic | frontend/src/components/demo-register.tsx:55 | on characters up to U+FFFF the length is the number of characters |
| JsStrings.Split | frontend/src/components/Filter.tsx:104 | `split(',')` always yields at least one piece and no piece contains the separator |
| JsStrings.SplitWithoutSeparator | frontend/src/components/Filter.tsx:104 | a string without the separator splits into itself alone |
| JsStrings.SplitAfterPiece | frontend/src/components/Filter.tsx:104 | a leading piece followed by the separator splits off as the first piece |
| JsStrings.SplitJoin | frontend/src/components/Filter.tsx:126 | splitting the join of separator-free pieces gives back exactly those pieces |
| JsStrings.JoinSplit | frontend/src/components/Filter.tsx:126 | joining the pieces of a split restores the original string |
| JsStrings.NonEmpty | frontend/src/components/Filter.tsx:104 | `filter(Boolean)` keeps exactly the non-empty pieces and never lengthens the list |
| JsStrings.NonEmptyKeepsNonEmpty | frontend/src/components/Filter.tsx:104 | the filter leaves a list without empty strings unchanged |
| JsStrings.NonEmptyAppend | frontend/src/components/AddProduct.tsx:163 | the filter works piecewise over concatenation, so it keeps order |
| JsStrings.TrimStart | frontend/src/components/AddProduct.tsx:161 | the result is a suffix; what was cut is all whitespace; it does not start with whitespace |
| JsStrings.TrimEnd | frontend/src/components/AddProduct.tsx:161 | the result is a prefix; what was cut is all whitespace; it does not end with whitespace |
| JsStrings.Trim | frontend/src/components/AddProduct.tsx:161 | the result is a contiguous run of the input, everything before and after it is whitespace, and it neither starts nor ends with whitespace |
| JsStrings.PrefixOfSuffix | frontend/src/components/AddProduct.tsx:161 | trimming the end after the start leaves a run of the input with whitespace on both sides |
| JsStrings.TrimAllWhitespace | frontend/src/components/AddProduct.tsx:161 | an empty or all-whitespace string trims to "" |
| JsStrings.TrimNoOuterWhitespace | frontend/src/components/demo-register.tsx:46 | a string without outer whitespace is left as it is |
| JsStrings.LowerChar | frontend/src/components/Filter.tsx:39 | a capital ASCII letter becomes the same letter in lower case; every other character is kept |
| JsStrings.ToLower | frontend/src/components/Filter.tsx:39 | lowering keeps the length and works character by character |
| JsStrings.Join | frontend/src/components/Filter.tsx:126 | the pieces with the separator between them; `SplitJoin` and `JoinSplit` prove it the inverse of `Split` |
| JsStrings.Includes | frontend/src/components/Filter.tsx:39 | the search tries each start position in turn; `IncludesIffOccurs` proves it equal to "occurs at some position" |
| JsStrings.IncludesIffOccurs | frontend/src/components/Filter.tsx:39 | `includes` holds exactly when the term occurs at some position |
| JsStrings.IncludesHasOccurrence | frontend/src/components/Filter.tsx:39 | when `includes` holds, the term occurs at some position |
| JsStrings.OccurrenceIncludes | frontend/src/components/Filter.tsx:39 | an occurrence at any position makes `includes` hold |
| JsStrings.IncludesEmpty | frontend/src/components/Filter.tsx:39 | every string includes the empty term |
| CartContext.Find | frontend/src/context/CartContext.tsx:21-23 | `find` returns a line iff some line has the id, and the value is the first such line |
| CartContext.MergeQuantity | frontend/src/context/CartContext.tsx:27-31 | the add-merge `map` raises exactly the lines with the id by the delta, keeps their product snapshot, and leaves the other lines and the length unchanged |
| CartContext.RemoveLines | frontend/src/context/CartContext.tsx:39-41 | the remove `filter` keeps exactly the lines whose id differs |
| CartContext.SetQuantity | frontend/src/context/CartContext.tsx:47-51 | the update `map` gives exactly the lines with the id the new quantity and leaves the others and the length unchanged |
| CartContext.AddItem | frontend/src/context/CartContext.tsx:21-34 | merge into the existing line or append; proved by `AddNewAppends`, `AddExistingMerges`, `AddQuantity` and `AddKeepsUniqueIds` |
| CartContext.CartReducer | frontend/src/context/CartContext.tsx:18-60 | one branch per action type; each branch is characterised by the lemmas below, and `ReducerKeepsUniqueIds` proves that every action keeps one line per product |
| CartContext.Run | frontend/src/context/CartContext.tsx:65 | dispatches actions in order; `ReachableStatesHaveUniqueIds` and `RepeatedAddFrom` are proved over it |
| CartContext.AddNewAppends | frontend/src/context/CartContext.tsx:34 | a product not in the cart is appended as the last line, so the length grows by 1 |
| CartContext.AddExistingMerges | frontend/src/context/CartContext.tsx:24-32 | a product already in the cart keeps the length; its line gains the payload quantity and keeps its own snapshot; other lines are unchanged |
| CartContext.AddQuantity | frontend/src/context/CartContext.tsx:21-34 | on a duplicate-free cart, the cart holds exactly the payload quantity more of the product afterwards, all in one line |
| CartContext.MergeQuantityAtUnique | frontend/src/context/CartContext.tsx:27-31 | merging into the product's single line raises its held quantity by the delta and leaves one line |
| CartContext.AddKeepsUniqueIds | frontend/src/context/CartContext.tsx:21-34 | ADD_TO_CART never creates a second line for a product |
| CartContext.RemoveDropsProduct | frontend/src/context/CartContext.tsx:36-42 | REMOVE_FROM_CART leaves no line for the product and keeps every other line |
| CartContext.RemoveAbsentIsNoOp | frontend/src/context/CartContext.tsx:39-41 | removing an absent product leaves the cart unchanged |
| CartContext.RemoveKeepsOrder | frontend/src/context/CartContext.tsx:39-41 | the remaining lines keep their relative order |
| CartContext.RemoveKeepsUniqueIds | frontend/src/context/CartContext.tsx:36-42 | removal keeps the cart free of duplicate products |
| CartContext.UpdateSetsExactly | frontend/src/context/CartContext.tsx:44-52 | UPDATE_QUANTITY sets matching lines to exactly the given number, 0 included, removes no line, and leaves the other lines and the length unchanged |
| CartContext.UpdateQuantityOf | frontend/src/context/CartContext.tsx:44-52 | on a duplicate-free cart holding the product, the cart afterwards holds exactly the given quantity of it |
| CartContext.ClearEmpties | frontend/src/context/CartContext.tsx:54-55 | CLEAR_CART yields an empty cart from any state |
| CartContext.UnhandledActionsAreIdentity | frontend/src/context/CartContext.tsx:57-58 | SET_CART (the local-storage restore) and every action type the switch has no case for leave the state unchanged |
| CartContext.ReducerKeepsUniqueIds | frontend/src/context/CartContext.tsx:18-60 | every action preserves "at most one line per product" |
| CartContext.ReachableStatesHaveUniqueIds | frontend/src/context/CartContext.tsx:18-65 | over any sequence of dispatched actions, the invariant holds throughout |
| CartContext.RepeatedAddMerges | frontend/src/context/CartContext.tsx:21-34 | adding one unit of the same product n times to the empty cart gives one line of quantity n |
| CartContext.RepeatedAddFrom | frontend/src/context/CartContext.tsx:21-34 | the same from any duplicate-free cart: n more units and one line |
| CartView.LineAmount | frontend/src/components/Cart.tsx:83 | a line's amount is its price times its quantity; the total is proved to sum these amounts (`TotalIsSumOfAmounts`) |
| CartView.Total | frontend/src/components/Cart.tsx:22-25 | the fold from 0; `TotalIsSumOfAmounts`, `TotalAppend` and `TotalCons` characterise it |
| CartView.PlaceOrderDisabled | frontend/src/components/Cart.tsx:105 | disabled exactly when the cart has no line; `PlaceOrderAfterAddAndClear` relates it to the reducer |
| CartView.ReduceAppend | frontend/src/components/Cart.tsx:22-25 | the fold over a list with one more line adds exactly that line's amount |
| CartView.TotalAppend | frontend/src/components/Cart.tsx:22-25 | appending a line adds its price times quantity to the total |
| CartView.TotalIsSumOfAmounts | frontend/src/components/Cart.tsx:22-25 | the `reduce` total equals the independently defined sum of price times quantity |
| CartView.TotalCons | frontend/src/components/Cart.tsx:22-25 | the total of a line followed by a cart is that line's amount plus the cart's total |
| CartView.MergeTotal | frontend/src/context/CartContext.tsx:27-31 | the add-merge raises the total by the delta times the matching lines' snapshot prices |
| CartView.RemoveTotal | frontend/src/context/CartContext.tsx:39-41 | removal lowers the total by exactly the removed lines' amounts |
| CartView.TotalAfterAdd | frontend/src/components/Cart.tsx:22-25 | after ADD_TO_CART the total rises by the payload quantity times the price already in the cart, or by the payload's own amount for a new product |
| CartView.TotalAfterRemoveAndClear | frontend/src/components/Cart.tsx:22-25 | after REMOVE_FROM_CART the total drops by the removed amount; after CLEAR_CART it is 0 |
| CartView.PlaceOrderAfterAddAndClear | frontend/src/components/Cart.tsx:105 | "Place Order" is enabled after any ADD_TO_CART and disabled after CLEAR_CART |
| CartView.OrderBodyFor | frontend/src/components/Cart.tsx:34-37 | the order body carries the current lines unchanged and their summed amounts as the total |
| CartView.TotalExample | frontend/src/components/Cart.tsx:22-25 | 2 units at 100 and 1 at 50 total 250 |
| CartView.AddTwiceExample | frontend/src/context/CartContext.tsx:21-34 | adding one unit at price 200 twice gives one line of 2 and a total of 400 |
| ProductList.SelectedQuantity | frontend/src/components/ProductList.tsx:25 | `quantities[id] \|\| 1`: the stored number when it is present and non-zero, else 1 |
| ProductList.QuantitySelector.constructor | frontend/src/components/ProductList.tsx:20-22 | the selector starts empty |
| ProductList.QuantitySelector.SetQuantity | frontend/src/components/ProductList.tsx:80-82 | the entered number is recorded for that product only |
| ProductList.QuantitySelector.HandleAddToCart | frontend/src/components/ProductList.tsx:24-28 | dispatches ADD_TO_CART with the product and its selected quantity; resets that product's entry to 1; leaves the other entries unchanged |
| ProductList.ResetAfterAdd | frontend/src/components/ProductList.tsx:27 | after the reset the product shows 1 and the others show what they showed before |
| ProductList.AddTwiceWithoutEditing | frontend/src/components/ProductList.tsx:24-28 | two adds in a row put the selected quantity and then 1 into one cart line |
| Filter.ParseSelected | frontend/src/components/Filter.tsx:104-105 | the selection read from a parameter has no empty or comma-containing id, and is empty when the parameter is missing |
| Filter.UpdateFilters | frontend/src/components/Filter.tsx:122-137 | sets the key to the comma-joined values, or deletes it for none; deletes categories when the brands change; leaves other keys unchanged; the values read back unchanged |
| Filter.ReadBackJoined | frontend/src/components/Filter.tsx:122-137 | any list of non-empty comma-free ids, the empty list included, joined then parsed, comes back the same and in order |
| Filter.ToggleSelection | frontend/src/components/Filter.tsx:76-83 | checking appends the id, unchecking filters it out; `ToggleEffect` and `CheckThenUncheck` are proved about it |
| Filter.IsChecked | frontend/src/components/Filter.tsx:75 | a box is checked iff its id is selected; `ToggleEffect` proves the toggle sets it as clicked |
| Filter.Without | frontend/src/components/Filter.tsx:81 | the unchecking `filter` keeps exactly the ids other than the option's |
| Filter.ToggleEffect | frontend/src/components/Filter.tsx:75-83 | checking appends the id and shows the box checked; unchecking shows it unchecked and keeps exactly the other ids |
| Filter.WithoutKeepsOrder | frontend/src/components/Filter.tsx:81 | unchecking keeps the remaining ids in order |
| Filter.CheckThenUncheck | frontend/src/components/Filter.tsx:76-83 | checking an unselected option and then unchecking it restores the selection |
| Filter.WithoutAbsent | frontend/src/components/Filter.tsx:81 | unchecking an absent id changes nothing |
| Filter.FilteredOptions | frontend/src/components/Filter.tsx:38-40 | no options before they arrive, else the matching ones; `FilteredIff`, `FilteredKeepsOrder` and `EmptySearchKeepsAll` are proved about it |
| Filter.MatchingOptions | frontend/src/components/Filter.tsx:38-40 | the search keeps exactly the options that match |
| Filter.FilteredIff | frontend/src/components/Filter.tsx:38-40 | an option is listed iff its lower-cased name contains the lower-cased term at some position |
| Filter.FilteredKeepsOrder | frontend/src/components/Filter.tsx:38-40 | the search keeps the options' order |
| Filter.EmptySearchKeepsAll | frontend/src/components/Filter.tsx:38-40 | an empty search lists every option |
| Filter.BrandsQuery | frontend/src/components/Filter.tsx:30 | "" for no brands, else "?brands=" and the join; `BrandsQueryShape` proves the ids parse back |
| Filter.BrandsQueryShape | frontend/src/components/Filter.tsx:30 | no brands give no query; otherwise "?brands=" followed by the joined ids, which parse back to the same ids |
| Filter.ClearAllVisible | frontend/src/components/Filter.tsx:175 | the button shows iff a brand or a category is selected; `ClearAll` proves it hidden afterwards |
| Filter.ClearAll | frontend/src/components/Filter.tsx:175-178 | "Clear All" drops every parameter: no selection is left and the button hides |
| InputRules.StripNonDigits | frontend/src/components/demo-register.tsx:32 | the sanitised value is all digits and no longer than the input |
| InputRules.StripKeepsEveryDigit | frontend/src/components/demo-register.tsx:32 | every digit survives as often as it occurs, and no other character survives |
| InputRules.StripNonDigitsAppend | frontend/src/components/demo-register.tsx:32 | the sanitiser works piecewise, so it keeps the digits' order |
| InputRules.StripDigitsOnly | frontend/src/components/demo-register.tsx:32 | a string of digits passes through unchanged |
| InputRules.StripIdempotent | frontend/src/components/demo-register.tsx:32 | sanitising twice is sanitising once |
| InputRules.PhoneAfterChange | frontend/src/components/demo-register.tsx:30-42 | the sanitised input replaces the field only when it has at most 10 digits; otherwise the field keeps its value |
| InputRules.PhoneStaysSanitised | frontend/src/components/demo-login.tsx:26-38 | the field holds at most 10 digits whatever is typed |
| InputRules.MatchesAnchoredIff | frontend/src/components/demo-register.tsx:49-52 | an anchored class pattern matches iff the lengths agree and each character is in its class |
| InputRules.ValidatePhoneNumber | frontend/src/components/demo-register.tsx:49-52 | ten digits, the first 6 to 9; `ValidatePhoneNumberIff` proves it equal to the regular expression |
| InputRules.ValidatePhoneNumberIff | frontend/src/components/demo-register.tsx:49-52 | the regular expression accepts exactly the 10-digit strings starting with 6, 7, 8 or 9, which is the phone rule the forms check |
| InputRules.ValidSanitisedPhone | frontend/src/components/demo-login.tsx:41-44 | on a sanitised field, validity means 10 digits, the first of them 6 to 9 |
| InputRules.ValidatePassword | frontend/src/components/demo-register.tsx:54-56 | a JavaScript length (UTF-16 code units) of at least 8, whatever the characters; `Register.PayloadShape` and `Login.PayloadShape` carry it into the request |
| InputRules.PasswordCountsCodeUnits | frontend/src/components/demo-register.tsx:54-56 | four characters beyond U+FFFF pass the rule; seven ordinary characters do not |
| InputRules.BasicPasswordRule | frontend/src/components/demo-register.tsx:54-56 | without characters beyond U+FFFF the rule is "8 characters or more" |
| InputRules.SubmittedPhone | frontend/src/components/demo-register.tsx:100 | "+91" then the digits; `SubmittedPhoneShape` proves the entry recoverable |
| InputRules.SubmittedPhoneShape | frontend/src/components/demo-register.tsx:100 | a valid number is sent as "+91" and its 10 digits, from which the entry is recovered |
| Register.ValidateName | frontend/src/components/demo-register.tsx:45-47 | a JavaScript length of at least 2 once trimmed; `TrimmedNameShape`, `BlankNameInvalid` and `AstralNameValid` are proved about it |
| Register.AstralNameValid | frontend/src/components/demo-register.tsx:45-47 | a single character beyond U+FFFF is a valid name, since it has JavaScript length 2 |
| Register.PayloadFor | frontend/src/components/demo-register.tsx:98-102 | the trimmed name, "+91" and the number, the password; `PayloadShape` proves the shape of a validated request |
| Register.FieldErrors | frontend/src/components/demo-register.tsx:58-84 | each field's message is "" iff that field's check passes |
| Register.NoErrorsIffValid | frontend/src/components/demo-register.tsx:58-84 | the record is all "" iff all three checks pass |
| Register.CollectErrors | frontend/src/components/demo-register.tsx:58-81 | filling the record field by field yields exactly the per-field messages, and the flag stays true iff all three checks pass |
| Register.PayloadShape | frontend/src/components/demo-register.tsx:86-101 | a request that passed validation carries a trimmed name of JavaScript length 2 or more, "+91" and a valid mobile number, and a password of JavaScript length 8 or more |
| Register.TrimmedNameShape | frontend/src/components/demo-register.tsx:45-47 | a valid name, trimmed, is non-empty, has JavaScript length 2 or more and has no outer whitespace |
| Register.BlankNameInvalid | frontend/src/components/demo-register.tsx:45-47 | a name of whitespace only fails, however long the name is |
| Register.RegisterForm.constructor | frontend/src/components/demo-register.tsx:17-26 | all fields and errors start empty |
| Register.RegisterForm.SetName | frontend/src/components/demo-register.tsx:148 | the name field takes the typed value |
| Register.RegisterForm.SetPassword | frontend/src/components/demo-register.tsx:184 | the password field takes the typed value |
| Register.RegisterForm.HandlePhoneNumberChange | frontend/src/components/demo-register.tsx:30-42 | the field becomes the sanitised input, and its error is cleared, only for at most 10 digits; otherwise nothing changes; the field stays sanitised |
| Register.RegisterForm.ValidateInputs | frontend/src/components/demo-register.tsx:58-84 | stores the per-field messages and returns true iff all three checks pass; on a sanitised field, the phone message is empty iff it holds 10 digits starting with 6 to 9 |
| Register.RegisterForm.HandleRegister | frontend/src/components/demo-register.tsx:86-102 | no request iff validation fails; otherwise trimmed name, "+91" number and password |
| Login.FieldErrors | frontend/src/components/demo-login.tsx:50-71 | each field's message is "" iff that field's check passes; there is no name check |
| Login.CollectErrors | frontend/src/components/demo-login.tsx:50-67 | filling the record field by field yields exactly the per-field messages, and the flag stays true iff both checks pass |
| Login.PayloadShape | frontend/src/components/demo-login.tsx:76-88 | a request that passed validation carries "+91" followed by the 10 digits entered, and a password of JavaScript length 8 or more |
| Login.LoginForm.constructor | frontend/src/components/demo-login.tsx:18-21 | all fields and errors start empty |
| Login.LoginForm.SetPassword | frontend/src/components/demo-login.tsx:164 | the password field takes the typed value |
| Login.LoginForm.HandlePhoneNumberChange | frontend/src/components/demo-login.tsx:26-38 | as for registration: only inputs of at most 10 digits are accepted, and accepting one clears the phone error |
| Login.LoginForm.ValidateInputs | frontend/src/components/demo-login.tsx:50-71 | stores the per-field messages and returns true iff both checks pass; on a sanitised field, the phone message is empty iff it holds 10 digits starting with 6 to 9 |
| Login.LoginForm.HandleLogin | frontend/src/components/demo-login.tsx:73-88 | no request iff validation fails; otherwise the "+91" number and the password |
| AddProduct.ParseTags | frontend/src/components/AddProduct.tsx:160-163 | no parsed tag is empty or contains a comma |
| AddProduct.BlankTagsGiveNone | frontend/src/components/AddProduct.tsx:160-163 | an empty or all-whitespace input gives no tags |
| AddProduct.InnerSpacesKept | frontend/src/components/AddProduct.tsx:161-162 | only the whole input's outer whitespace goes: "a, b" gives "a" and " b" |
| AddProduct.JoinEnds | frontend/src/components/AddProduct.tsx:161-162 | a joined string starts and ends with the characters of its first and last pieces |
| AddProduct.ParseJoinedTags | frontend/src/components/AddProduct.tsx:160-163 | comma-free, non-empty tags with no outer whitespace overall parse back from their join unchanged |
| AddProduct.MissingRequiredField | frontend/src/components/AddProduct.tsx:166 | the guard fires iff one of name, image, category, brand, MRP is empty; `PriceAndTagsNotChecked` and `HandleSubmit` are stated with it |
| AddProduct.PriceAndTagsNotChecked | frontend/src/components/AddProduct.tsx:166 | neither the price nor the tags affect the required-field guard |
| AddProduct.HandleSubmit | frontend/src/components/AddProduct.tsx:157-187 | rejected iff name, image, category, brand or MRP is empty; otherwise name, image, category, brand, tags, MRP, price in that order, with the parsed tags |
| AuthFormModel.Enabled | frontend/src/components/AuthForm.tsx:214-223 | which event each form offers: each form its own submission, the footer link on login and register only; the lemmas below are stated over enabled events |
| AuthFormModel.Next | frontend/src/components/AuthForm.tsx:35-71 | the state each enabled event leads to; `OtpOnlyFromRegister`, `OnlyLoginStays`, `FooterLinkSwaps` and `RunIntoOtp` are proved about it |
| AuthFormModel.Heading | frontend/src/components/AuthForm.tsx:197 | one heading per state; `HeadingsDistinct` proves them pairwise different |
| AuthFormModel.OtpOnlyFromRegister | frontend/src/components/AuthForm.tsx:35-71 | the code-entry state is reached only by submitting the register form |
| AuthFormModel.OnlyLoginStays | frontend/src/components/AuthForm.tsx:35-71 | the login submission is the one event that leaves the state unchanged |
| AuthFormModel.FooterLinkSwaps | frontend/src/components/AuthForm.tsx:214-223 | the footer link swaps login and register, never leads to code entry, and twice comes back |
| AuthFormModel.HeadingsDistinct | frontend/src/components/AuthForm.tsx:197 | the three headings tell the three states apart |
| AuthFormModel.RunIntoOtp | frontend/src/components/AuthForm.tsx:35-71 | every run of enabled events that starts outside code entry and ends in it ends with a register submission |
| AuthFormModel.AuthForm.constructor | frontend/src/components/AuthForm.tsx:26-32 | the card starts on the login form with no message |
| AuthFormModel.AuthForm.HandleRegister | frontend/src/components/AuthForm.tsx:35-47 | moves to code entry with "OTP sent to your email" |
| AuthFormModel.AuthForm.HandleLogin | frontend/src/components/AuthForm.tsx:49-58 | changes nothing; the heading stays "Login" |
| AuthFormModel.AuthForm.HandleVerifyOtp | frontend/src/components/AuthForm.tsx:60-71 | any code change moves to login with "Registration successful" |
| AuthFormModel.AuthForm.ClickFooterLink | frontend/src/components/AuthForm.tsx:214-223 | follows the state machine's footer transition |
| AuthFormModel.AuthForm.SetEmail | frontend/src/components/AuthForm.tsx:101 | the email field takes the typed value |
| AuthFormModel.AuthForm.SetPassword | frontend/src/components/AuthForm.tsx:116 | the password field takes the typed value |
| AuthFormModel.AuthForm.SetName | frontend/src/components/AuthForm.tsx:143 | the name field takes the typed value |
| AuthFormModel.AuthForm.TogglePasswordVisibility | frontend/src/components/AuthForm.tsx:122 | the eye button flips password visibility |
| ProtectedRoutes.ProtectedRoute | frontend/src/components/ProtectedRoutes.tsx:4-19 | the placeholder iff loading; a redirect iff not loading, signed out and off the home page, to "/auth" with `from` set and replace on |
| ProtectedRoutes.ChildrenIff | frontend/src/components/ProtectedRoutes.tsx:13-18 | the content is shown iff not loading and either signed in or on "/" |
| ProtectedRoutes.AuthenticationOnlyOpens | frontend/src/components/ProtectedRoutes.tsx:13-18 | signing in never hides content a signed-out visitor sees, and never redirects |
| ProtectedRoutes.RedirectRemembersOrigin | frontend/src/components/ProtectedRoutes.tsx:15 | the redirect keeps the whole originating location |
| BrandScroll.DisplayBrands | frontend/src/components/BrandScroll.tsx:55 | the shown brands are a prefix of the list: all of it when expanded, else min(4, n) |
| BrandScroll.BrandPath | frontend/src/components/BrandScroll.tsx:47-49 | the path is "/brand=" followed by the brand name |
| BrandScroll.Render | frontend/src/components/BrandScroll.tsx:23-97 | the four outcomes in precedence order; `RenderPrecedence` and `ExpandedShowsAll` characterise it |
| BrandScroll.SeeMoreVisible | frontend/src/components/BrandScroll.tsx:88 | offered while collapsed with more than 4 brands; `SeeMoreIffHidden` proves it shown iff a brand is hidden |
| BrandScroll.RenderPrecedence | frontend/src/components/BrandScroll.tsx:23-45 | spinner iff loading; error iff not loading and failed; "No brands" iff neither and the list is missing or empty; the grid otherwise |
| BrandScroll.SeeMoreIffHidden | frontend/src/components/BrandScroll.tsx:88 | "See More" is shown iff some brand is hidden |
| BrandScroll.ExpandedShowsAll | frontend/src/components/BrandScroll.tsx:51-55 | once expanded, the grid lists every brand without the button |
| BrandScroll.BrandPathInjective | frontend/src/components/BrandScroll.tsx:47-49 | different brand names lead to different paths |
| BrandScroll.BrandScrollState.constructor | frontend/src/components/BrandScroll.tsx:7 | the strip starts collapsed |
| BrandScroll.BrandScrollState.HandleSeeMore | frontend/src/components/BrandScroll.tsx:51-53 | expands the strip, and it stays expanded |

## Left out

- Network requests and their outcomes are not modelled: brand and category fetching, order, login, registration and product posts, toasts, loading flags. The handlers return the request they would send.
- The local-storage persistence in `CartProvider` is a browser side effect and is not modelled. The SET_CART it dispatches falls to the reducer's default branch and is modelled as a no-op.
- The action-creator wrappers `addToCart`, `removeFromCart`, `updateQuantity` and `clearCart` only dispatch, so they are not modelled.
- `parseInt` on the number inputs and NaN are not modelled. Neither are float prices and `toFixed` formatting. Prices and quantities are integers.
- `Filter.ClearAll`, `Filter.UpdateFilters`: URLSearchParams are modelled as a map. Parameter order and repeated keys are not captured.
- Filter options: the modal's search reads `brandName` on every option, categories included. Category records have no `brandName`, so on them the source's `toLowerCase()` call would throw; the model assumes every option carries a `brandName` and does not model that error.
- `AddProduct.HandleSubmit`: the tags field carries the parsed list. It does not carry the list's `JSON.stringify` text, because JSON escaping is not modelled.
- The image `FileReader` preview and the category and brand dropdown fetches in the add-product form are not modelled.
- `JsStrings.Trim`: whitespace is the ASCII set (space, tab, line feed, carriage return, vertical tab, form feed). The Unicode spaces that JavaScript also trims are not modelled.
- `JsStrings.ToLower`: lower-casing is ASCII only. Unicode case mapping is not modelled.
- The Add to Cart button's `isDisabled` when stock is 0 (ProductList.tsx:92) is presentation only, so it is not modelled. The reducer itself accepts any product.
- The quantity inputs' bounds are not modelled: `min={1}` and `max={stockQuantity}` on the cart's input (Cart.tsx:73-74) and on the product selector (ProductList.tsx:77-78). Keeping the steppers in range and clamping a typed value on blur is done by the UI library's NumberInput, so the model lets any integer reach `UPDATE_QUANTITY` and the selector's map.
- `AuthFormModel.AuthForm` handlers require the state in which their control is rendered. A handler cannot be reached from any other state.
- The `otp` value in the authentication card is never written by the code, so it is not modelled.
- Styling, layout, routing tables, the QR scanner, the search bar's debounce and the NestJS backend are not modelled.
