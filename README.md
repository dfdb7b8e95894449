# PayFlow invoice editor and local authentication, in Dafny

PayFlow is a browser invoice generator written in React. This project models its core in seven modules.

- **`InvoiceEditor`** (`invoice_editor.dfy`) is the invoice editor page, `src/pages/Index.jsx`:
  - the random invoice number;
  - the line-item list and its edits;
  - the derived sub-total, tax and grand total;
  - the draft the page keeps in local storage under `formData`.
- **`AuthService`** (`auth_service.dfy`) is the local authentication store, `src/utils/authService.js`:
  - registration, login, the current session with its seven-day token, profile update and logout;
  - storage is two keys: `payflow_users` for the user list and `payflow_auth` for the session.
- **`AuthContext`** (`auth_context.dfy`) is the React context around that store, `src/contexts/AuthContext.jsx`.
- **`AuthPage`** (`auth_page.dfy`) is the sign-in and sign-up form, `src/pages/AuthPage.jsx`:
  - the registration checks;
  - the `loading` flag.
- **`ProfilePage`** (`profile_page.dfy`) is the profile form, `src/pages/ProfilePage.jsx`:
  - its initial state;
  - its dotted-path field update;
  - its submit.
- **`Currency`** (`currency.dfy`) is the currency formatting helpers, `src/utils/formatCurrency.js`.
- **`Wrappers`** (`wrappers.dfy`) holds the `Option` type.

How the model is built:

- **Pure logic:**
  - the operations of the authentication store are functions from the storage to a `Step`, the new storage paired with the result;
  - the invoice totals, the draft round trip and the currency helpers are functions too.
  - Lemmas state what the code promises about all of these.
- **State:**
  - the components and the service object are classes;
  - their fields are the React state variables and the local-storage keys;
  - each method's `ensures` ties its new state to the matching function.

Nondeterminism and outside inputs are parameters:

- every `Math.random()` draw is a real number in [0, 1);
- the clock is `now`, in milliseconds. `register` reads it twice, once for the id and once inside `generateToken`, and the second reading is the separate parameter `tokenNow`;
- the ISO creation date is `createdAt`;
- `Intl.NumberFormat` is a function the formatting helpers receive.

JavaScript numbers are modelled as mathematical reals. A string's `.length` counts UTF-16 code units.

Some behaviours of the code are deliberate parts of the model:

- **Encoding:**
  - `btoa` of a password is an injective constructor;
  - `btoa` throws on a character outside Latin-1, and both `register` and `login` model that exception.
- **Tokens:**
  - a token is either an encoded payload or a string that does not decode;
  - a payload without `exp` never expires, because `undefined < now` is false.
- **Loading the draft:**
  - loading a saved draft never reads the stored totals;
  - an empty stored currency comes back as "USD".
- **Editing items:**
  - `handleItemChange` on an index with no item throws before it changes anything;
  - the model treats that case as no change.

## Model

| member | source | states |
|---|---|---|
| InvoiceEditor.Scale | src/pages/Index.jsx:16-27 | scaling a random draw and taking the floor gives an index below the range size, bounded by the scaled draw |
| InvoiceEditor.InvoiceNumberShape | src/pages/Index.jsx:15-31 | a generated number has 3 to 8 characters: exactly `alphabetCount` (at most 3) upper-case letters, then only digits |
| InvoiceEditor.EveryInvoiceNumberIsGenerated | src/pages/Index.jsx:15-31 | every string of that shape is produced by some valid draws; with the previous row, the generator's range is exactly that shape |
| InvoiceEditor.GenerateRandomInvoiceNumber | src/pages/Index.jsx:15-31 | the two loops build the specified number, character by character, and the result has the invoice-number shape |
| InvoiceEditor.EditedItem | src/pages/Index.jsx:145-150 | only the edited field changes; `total` becomes quantity times amount exactly when the quantity or the amount is edited |
| InvoiceEditor.FilteredRemovesIndex | src/pages/Index.jsx:162-165 | removal deletes exactly position `index` and keeps the order of the rest; an index out of range changes nothing |
| InvoiceEditor.TaxRate | src/pages/Index.jsx:195-199 | the rate is the parsed number, and zero exactly when the parse fails or gives zero |
| InvoiceEditor.SubTotalConcat | src/pages/Index.jsx:167-171 | the sub-total of two lists joined is the sum of their sub-totals |
| InvoiceEditor.SubTotalSnoc | src/pages/Index.jsx:167-171 | appending an item adds its quantity times amount |
| InvoiceEditor.SubTotalSingle | src/pages/Index.jsx:167-171 | one item's sub-total is its quantity times amount |
| InvoiceEditor.SubTotalIgnoresTotals | src/pages/Index.jsx:167-171 | the stored per-item `total` does not enter the sub-total; only quantities and amounts do |
| InvoiceEditor.AddItemKeepsSubTotal | src/pages/Index.jsx:155-160 | adding the empty item leaves the sub-total unchanged |
| InvoiceEditor.SplitSubTotal | src/pages/Index.jsx:167-171 | the sub-total of a list with one item inside is that of the list without it, plus the item's value |
| InvoiceEditor.RemoveItemSubTotal | src/pages/Index.jsx:162-171 | removing an item takes exactly its quantity times amount off the sub-total |
| InvoiceEditor.RemoveAtSubTotal | src/pages/Index.jsx:162-171 | the list without position `index` has the sub-total minus that item's quantity times amount |
| InvoiceEditor.EditItemSubTotal | src/pages/Index.jsx:145-171 | editing an item moves the sub-total by the change in that item's quantity times amount |
| InvoiceEditor.TaxBounds | src/pages/Index.jsx:173-183 | for a tax rate from 0 to 28 and a non-negative sub-total, the tax lies between 0 and 28% of the sub-total, and the grand total is the sub-total scaled by (100 + rate)/100 |
| InvoiceEditor.DummyTotals | src/pages/Index.jsx:247-291 | at 10% tax the sample items give a sub-total of 1165, tax of 116.5 and a grand total of 1281.5 |
| InvoiceEditor.WithTotals | src/pages/Index.jsx:185-193 | recomputing the totals changes only the three totals, and they then agree with the items and the tax rate |
| InvoiceEditor.SaveThenLoad | src/pages/Index.jsx:84-125 | when the currency is not empty, saving and then loading restores every input field, and the loading state keeps its totals |
| InvoiceEditor.SaveThenLoadCurrency | src/pages/Index.jsx:100-123 | the currency survives a save and load exactly when it is not empty |
| InvoiceEditor.SaveLoadRecomputeRoundTrip | src/pages/Index.jsx:84-203 | a saved state whose totals are consistent comes back unchanged after the load effect and the totals effect |
| InvoiceEditor.LoadIgnoresStoredTotals | src/pages/Index.jsx:88-100 | two drafts that differ only in the stored totals load identically |
| InvoiceEditor.LoadAllFalsy | src/pages/Index.jsx:89-100 | a record whose every key is falsy loads as the initial state |
| InvoiceEditor.ClearedTotals | src/pages/Index.jsx:296-309 | after clearing and recomputing, there is one empty item, all totals are zero, and the currency is kept |
| InvoiceEditor.Editor.constructor | src/pages/Index.jsx:59-77 | the initial values of the eleven state variables |
| InvoiceEditor.Editor.Load | src/pages/Index.jsx:84-108 | with a saved draft, the state becomes the restored draft; without one, only the invoice number changes, to a generated one |
| InvoiceEditor.Editor.Save | src/pages/Index.jsx:110-138 | the stored draft holds all eleven current fields |
| InvoiceEditor.Editor.UpdateTotals | src/pages/Index.jsx:167-193 | the new state is the recomputed-totals state, and its totals are consistent |
| InvoiceEditor.Editor.HandleItemChange | src/pages/Index.jsx:145-153 | an index in range edits that item and recomputes the totals; any other index changes nothing; `applied` tells which |
| InvoiceEditor.Editor.AddItem | src/pages/Index.jsx:155-160 | the list gains one empty item at the end |
| InvoiceEditor.Editor.RemoveItem | src/pages/Index.jsx:162-165 | the item at `index` goes and the rest keep their order; an out-of-range index changes nothing |
| InvoiceEditor.Editor.HandleTaxPercentageChange | src/pages/Index.jsx:195-199 | the tax percentage becomes the parsed rate, or zero |
| InvoiceEditor.Editor.ClearForm | src/pages/Index.jsx:296-309 | the cleared state with a fresh invoice number; the currency and the totals stay; the stored draft is removed |
| Currency.LocaleTable | src/utils/formatCurrency.js:2-10 | the five currency codes map to their locales |
| Currency.UnknownCodeFallsBack | src/utils/formatCurrency.js:10-15 | any other code is formatted in en-US, and the code itself still goes to the formatter |
| Currency.FormatDefaults | src/utils/formatCurrency.js:1-16 | the defaults are US dollars with two fraction digits, in en-US |
| Currency.StripSymbol | src/utils/formatCurrency.js:19 | the result is no longer than the input and contains no digit, period, comma or white space |
| Currency.GetCurrencySymbol | src/utils/formatCurrency.js:18-20 | the symbol contains no digit, period, comma or white space, and is no longer than zero formatted in that currency |
| Currency.StripConcat | src/utils/formatCurrency.js:19 | stripping works character by character: stripping a concatenation concatenates the stripped parts |
| Currency.StripKeepsClean | src/utils/formatCurrency.js:19 | a string with none of those characters comes through unchanged |
| Currency.StripIdempotent | src/utils/formatCurrency.js:19 | stripping twice is stripping once |
| Currency.StripCounts | src/utils/formatCurrency.js:19 | the stripped characters disappear, and every other character keeps its number of occurrences |
| AuthService.GenerateToken | src/utils/authService.js:16-22 | the token encodes the user id and an expiry of `now` plus seven days |
| AuthService.VerifyToken | src/utils/authService.js:25-35 | a payload comes back exactly when the token decodes and has not expired; a missing expiry never expires |
| AuthService.TokenExpiry | src/utils/authService.js:16-35 | a token issued at `issued` verifies exactly up to and including `issued` + 604800000 ms, with its own payload |
| AuthService.DecimalString | src/utils/authService.js:59 | the id is the decimal numeral of the clock value: non-empty, digits only, denoting exactly that value, and with no leading zero unless the value is zero |
| AuthService.DecimalStringInjective | src/utils/authService.js:59 | different clock values give different ids |
| AuthService.FindCredentials | src/utils/authService.js:95 | a found index is in range and holds a user with that email and that encoded password |
| AuthService.FindCredentialsSpec | src/utils/authService.js:95 | the search throws exactly when the password is not Latin-1 and some user has the email; otherwise it finds a user exactly when one matches both, and it finds the first such user |
| AuthService.FindId | src/utils/authService.js:144 | the position of the first user with the id, or none exactly when no user has it |
| AuthService.RegisterDuplicate | src/utils/authService.js:49-55 | a registration with an email already present fails and leaves the storage unchanged |
| AuthService.RegisterSuccess | src/utils/authService.js:49-90 | registration succeeds exactly for a new email and a Latin-1 password; it then appends the new user with the empty profile and the encoded password, whose id is taken from the first clock reading; it stores and returns the session without the password, with a token that expires one lifetime after the second reading |
| AuthService.RegisterNonLatin1 | src/utils/authService.js:57-62 | a non-Latin-1 password throws, after only the user list's initialisation has been written |
| AuthService.RegisterTwice | src/utils/authService.js:49-90 | after a successful registration, a second one with the same email fails as a duplicate |
| AuthService.LoginSucceedsIff | src/utils/authService.js:93-114 | login succeeds exactly when some user matches both email and encoded password (and the password is Latin-1); on failure the session is unchanged and the error is "Invalid email or password"; the user list never changes |
| AuthService.LoginFirstMatch | src/utils/authService.js:93-114 | login takes the first user matching both email and encoded password, and stores and returns that user's session with a token issued now |
| AuthService.RegisterThenLogin | src/utils/authService.js:49-114 | after registering, a login with the same credentials succeeds as the new user |
| AuthService.CurrentUserNoRecord | src/utils/authService.js:117-134 | no session record, or one that does not parse, gives null and writes nothing |
| AuthService.CurrentUserChecksToken | src/utils/authService.js:117-134 | an undecodable or expired token removes the session and gives null; a valid one gives the stored session and writes nothing |
| AuthService.LoginSessionLifetime | src/utils/authService.js:101-134 | the session a login stores is current for seven days and cleared at the first access after that |
| AuthService.UpdateProfileUnauthenticated | src/utils/authService.js:137-141 | without a valid session, the update fails with "Not authenticated" and the user list is unchanged |
| AuthService.UpdateProfileUnknownUser | src/utils/authService.js:143-148 | with a session whose id is in no user, the update fails with "User not found" and writes nothing beyond the list's initialisation |
| AuthService.UpdateProfileMerge | src/utils/authService.js:150-171 | only that user changes: the name changes when the new one is non-empty, and the profile is merged key by key, keeping keys the update does not name; the stored and returned session keeps its id, email and token |
| AuthService.LogoutIdempotent | src/utils/authService.js:175-177 | after logout there is no session, and a second logout changes nothing |
| AuthService.IsAuthenticatedIffCurrentUser | src/utils/authService.js:180-182 | authenticated exactly when the current user is not null, with the same effect on storage |
| AuthService.AuthService.constructor | src/utils/authService.js:3-6 | the service starts over whatever the two storage keys hold |
| AuthService.AuthService.GetUsers | src/utils/authService.js:38-41 | a missing user list is initialised to empty; the list read back is the stored one |
| AuthService.AuthService.SaveUsers | src/utils/authService.js:44-46 | the stored user list becomes the given one |
| AuthService.AuthService.Register | src/utils/authService.js:49-90 | the new storage and the response are those of the register function |
| AuthService.AuthService.Login | src/utils/authService.js:93-114 | the new storage and the response are those of the login function |
| AuthService.AuthService.GetCurrentUser | src/utils/authService.js:117-134 | the new storage and the result are those of the current-user function |
| AuthService.AuthService.UpdateProfile | src/utils/authService.js:137-172 | the new storage and the response are those of the update function |
| AuthService.AuthService.Logout | src/utils/authService.js:175-177 | the session key is removed, and nothing else changes |
| AuthService.AuthService.IsAuthenticated | src/utils/authService.js:180-182 | the new storage and the answer are those of the authentication-check function |
| AuthContext.AuthProvider.constructor | src/contexts/AuthContext.jsx:14-16 | no user, still loading |
| AuthContext.AuthProvider.Mount | src/contexts/AuthContext.jsx:18-25 | takes the current session if there is one and stops loading |
| AuthContext.AuthProvider.Login | src/contexts/AuthContext.jsx:27-38 | the service performs a login; a success sets `user` to the returned session; a failure or an exception returns its message and leaves `user` unchanged |
| AuthContext.AuthProvider.Register | src/contexts/AuthContext.jsx:40-51 | the same for registration |
| AuthContext.AuthProvider.Logout | src/contexts/AuthContext.jsx:53-56 | the session is removed and `user` becomes null |
| AuthContext.AuthProvider.UpdateProfile | src/contexts/AuthContext.jsx:58-69 | the same for a profile update |
| AuthContext.AuthProvider.Settle | src/contexts/AuthContext.jsx:29-37 | how a response is reflected in the result and in `user` |
| AuthPage.Utf16Length | src/pages/AuthPage.jsx:80 | the length in UTF-16 code units lies between the number of characters and twice that; it equals the number of characters for text in the Basic Multilingual Plane; one character counts two units above U+FFFF and one otherwise |
| AuthPage.Utf16Concat | src/pages/AuthPage.jsx:80 | the length of a concatenation is the sum of the lengths; with the one-character case this fixes every string's length |
| AuthPage.Utf16Example | src/pages/AuthPage.jsx:80 | one character above U+FFFF followed by three ASCII letters is five code units long |
| AuthPage.RegistrationError | src/pages/AuthPage.jsx:71-87 | registration is rejected exactly when the two passwords differ or the password is shorter than 6; a mismatch is reported under its own message, and otherwise a short password under its own |
| AuthPage.MismatchReportedFirst | src/pages/AuthPage.jsx:71-87 | a short password that also differs from its confirmation reports the mismatch |
| AuthPage.AuthPage.constructor | src/pages/AuthPage.jsx:17-29 | empty forms, not loading, no calls yet |
| AuthPage.AuthPage.HandleLogin | src/pages/AuthPage.jsx:38-66 | exactly one login call with the form's email and password, made while `loading` is true; the service and `user` change as the context's login says; `loading` is false afterwards |
| AuthPage.AuthPage.HandleRegister | src/pages/AuthPage.jsx:68-115 | a rejected form makes no call and changes nothing; otherwise exactly one register call, made while loading and without the confirmation, takes effect as the context's register says, and `loading` is false afterwards |
| ProfilePage.InitialProfileData | src/pages/ProfilePage.jsx:18-28 | keys `name`, `email` and `profile`; the profile has exactly five keys, copied from the user or empty, and never `avatar` |
| ProfilePage.IndexOf | src/pages/ProfilePage.jsx:60 | the position of the first occurrence of the character, or none exactly when it does not occur |
| ProfilePage.FirstSegment | src/pages/ProfilePage.jsx:61 | the first segment is the prefix that runs up to the first period, or the whole string when there is no period |
| ProfilePage.UpdatedProfileData | src/pages/ProfilePage.jsx:59-75 | a plain field sets that key; a dotted field sets the child key inside the parent's record, keeping the record's other keys; every other key is kept in both cases |
| ProfilePage.EditKeepsAvatar | src/pages/ProfilePage.jsx:18-75 | after editing a profile field, the form sends that field's new value and no `avatar`, so the stored avatar survives the merge |
| ProfilePage.ProfileForm.constructor | src/pages/ProfilePage.jsx:16-28 | not loading, with the form built from the signed-in user |
| ProfilePage.ProfileForm.HandleInputChange | src/pages/ProfilePage.jsx:59-75 | the form becomes the updated form |
| ProfilePage.ProfileForm.HandleSubmit | src/pages/ProfilePage.jsx:30-57 | the whole form goes to the context's profile update, which takes effect as it says; `loading` is false afterwards |

## Left out

- JavaScript numbers are reals here. The model has no IEEE-754 rounding and no `NaN`; `parseFloat` is a parameter that either gives a number or fails.
- Item values typed into inputs arrive as strings and are coerced by `*`. The model takes them as numbers already.
- `handleItemChange` can set any field name. The model covers the four fields the page edits: name, description, quantity and amount.
- `handleItemChange` writes into the item object it shares with the previous state. The model has no such aliasing.
  - Through that shared object, the synchronous `updateTotals` call already sees the edit.
  - The model therefore states the totals after the edit.
- A stored `formData` value that is not valid JSON makes the load effect throw. That case is not modelled. A draft field of the wrong type is not modelled either.
- React effect ordering is not modelled: render batching, the save on mount before the draft is restored, and the save that re-writes the draft right after `clearForm` removed it. The save and load effects are separate methods.
- Toasts, navigation, the redirect effect in the sign-in page, and all markup are not modelled.
- `refreshNotes`, the note texts and `fillDummyData`'s dates and parties are not modelled. Only its items and the 10% tax are.
- The party updater `handleInputChange` (Index.jsx:140-143) and the currency setter are not modelled. They are single-field assignments.
- `Intl.NumberFormat` is a parameter. Its output is not modelled, nor its `RangeError` on an invalid currency code. A code such as `toString` reaching the object prototype in the locale table is not modelled either.
- JSON serialisation, base64 and the contents of local storage are not modelled. They appear as constructors and values.
- A users key holding JSON `null` or a non-array, and a token payload that is not an object, are not modelled.
- The exact message `btoa` throws depends on the browser. The model uses one fixed string.
- The ISO creation date and the clock are parameters.
- Two registrations in the same millisecond get the same id. The model allows this, because the id is the decimal clock value, but states nothing about it.
- Spreading a text value under a dotted profile key spreads its characters. The model treats that value as an empty record.
- ProfilePage.ToUpdate: in `updateProfile`, a non-text `name` and a non-record `profile` count as empty. Only the form's own shapes are covered.
- The `catch` blocks in the sign-in and profile pages cannot be reached, because the context never rejects. They are not modelled.
- The PDF templates, the template page, the landing page, the header, and the UI components are not modelled. Neither is the router in `App.jsx`.
