# Smart-shopping app core, modelled in Dafny

This project models the small pieces of real logic in a React Native shopping app:

- **The persisted cart store** (`lib/cartStore.ts`). It is the main part. The store keeps an ordered list of line items, each keyed by product id. `addItem`, `removeItem`, `increment`, `decrement` and `clear` change the list. `count` and `total` are derived from it.
  - Each operation is a pure transition on the item sequence: `Added`, `Removed`, `Incremented`, `Decremented`.
  - The class `CartStore.Cart` holds the `items` field. Its methods replace `items` through those transitions.
  - The lemmas prove the store's invariant for every sequence of calls from an empty cart: ids are unique and every quantity is at least 1. They also prove the exact effect of each operation and how each changes `count` and `total`.
- **The language context** (`contexts/LanguageContext.tsx`):
  - the six-entry language table;
  - how the language is chosen from the stored value at start-up;
  - the right-to-left flag;
  - the translation lookup `t`, which falls back from the current table to English and then to the key itself (tables are modelled as maps of their own entries);
  - the provider's `lang`/`isReady` state, changed by the initial load and by `changeLanguage`.
- **The promoted-products screen** (`app/promoted-products.tsx`): `toggleLike` updates the liked-id set and the product's like counter together. `getDaysRemaining` computes days left as a clamped ceiling division on integer milliseconds.
- **The promotion form** (`app/promote-product.tsx`):
  - `updateField`;
  - the ordered chain of required-field checks in `validateForm`, with JavaScript's `trim` semantics;
  - the duration-to-fee lookup with its default of 5 in `handleContinueToPayment`.

Files:

| file | module |
|---|---|
| `wrappers.dfy` | `Wrappers`: `Option` (TypeScript's optional value, with `??`) and `Outcome` |
| `cart_store.dfy` | `CartStore` |
| `language_context.dfy` | `LanguageContext` |
| `promoted_products.dfy` | `PromotedProducts` |
| `promote_product.dfy` | `PromoteProduct` |

Conventions:

- Prices are integers in the smallest currency unit, and `price?: number` is `Option<int>`.
- Strings are sequences of Dafny characters; JavaScript's UTF-16 code units are not modelled.
- The model follows the code as written. For example, `decrement` maps every matching line to `Math.max(0, qty - 1)` and then drops *every* line whose qty is not positive, including lines of other ids. The model defines `Decremented` exactly so. "The line with qty 1 is removed and nothing else changes" is then proved as `DecrementPresent`, under the store's invariant.
- Likewise, `increment` changes every line with the id, and `addItem` only the first. Both are modelled that way on all inputs. The methods of `Cart` carry no precondition, because the store validates nothing and a rehydrated list may hold anything. They promise instead that the invariant is kept when it held before.

## Model

| member | source | states |
|---|---|---|
| CartStore.UniqueIds | lib/cartStore.ts:31-35 | definition of "at most one line per product id", the property `addItem`'s `findIndex` step maintains; preserved by the `…KeepsInvariant` lemmas |
| CartStore.AllPositive | lib/cartStore.ts:35-52 | definition of "every line has qty at least 1", as new lines start at 1 and `decrement` filters out the rest; preserved by the `…KeepsInvariant` lemmas |
| CartStore.Invariant | lib/cartStore.ts:29-56 | definition of the store invariant, unique ids and positive quantities; kept by every operation (`ApplyKeepsInvariant`) and every sequence of them from the empty cart (`FromEmptyKeepsInvariant`) |
| CartStore.IndexOf | lib/cartStore.ts:31 | `findIndex` by id: -1 exactly when no line has the id, otherwise a position holding the id with no earlier one |
| CartStore.PriceOrZero | lib/cartStore.ts:61 | definition of `it.price ?? 0`; used by `LineAmount` and the `…Total` lemmas |
| CartStore.Added | lib/cartStore.ts:29-38 | definition of the list `addItem` sets: one more unit on the first line with the id, else a new line at the end; its effect is stated by `AddItemExisting` and `AddItemNew`, its invariant by `AddItemKeepsInvariant`, its aggregates by `AddItemCount` and `AddItemTotal` |
| CartStore.AddItemExisting | lib/cartStore.ts:31-33 | re-adding an id whose first line is at `k` adds one unit at `k` and keeps that line's title, price and position (the call's title and price are ignored) |
| CartStore.AddItemNew | lib/cartStore.ts:34-35 | adding an absent id appends `{id, title, price, qty: 1}` after the unchanged earlier lines |
| CartStore.AddItemKeepsInvariant | lib/cartStore.ts:29-38 | `addItem` keeps ids unique and quantities positive |
| CartStore.Removed | lib/cartStore.ts:40 | definition of `filter((it) => it.id !== id)`; what it keeps and drops is stated by `RemovedSubset`, `RemoveItemKeepsOthers`, `RemoveItemAbsent` and `RemoveItemPresent` |
| CartStore.RemovedSubset | lib/cartStore.ts:40 | every line kept by `removeItem` comes from the old list and has a different id: no line with the id is left |
| CartStore.RemoveItemKeepsOthers | lib/cartStore.ts:40 | every line with another id is kept |
| CartStore.RemoveItemAbsent | lib/cartStore.ts:40 | removing an absent id leaves the list unchanged |
| CartStore.RemoveItemPresent | lib/cartStore.ts:40 | with unique ids, removing the id at `k` yields exactly the list without position `k`, the others in order |
| CartStore.RemovedKeepsUnique | lib/cartStore.ts:40 | filtering keeps ids unique |
| CartStore.RemoveItemKeepsInvariant | lib/cartStore.ts:40 | `removeItem` keeps the invariant |
| CartStore.Bumped | lib/cartStore.ts:43-45 | definition of the `map` callback of `increment`; used pointwise by `Incremented` |
| CartStore.Incremented | lib/cartStore.ts:42-47 | `increment` keeps the length, and each line is the `map` callback applied to the old line at that position |
| CartStore.IncrementPresent | lib/cartStore.ts:42-47 | with unique ids, `increment` of the id at `k` adds one unit at `k` and changes nothing else |
| CartStore.IncrementAbsent | lib/cartStore.ts:42-47 | `increment` of an absent id is a no-op |
| CartStore.IncrementKeepsInvariant | lib/cartStore.ts:42-47 | `increment` keeps the invariant |
| CartStore.ClampAtZero | lib/cartStore.ts:51 | definition of `Math.max(0, n)`, never negative; used by `Lowered` |
| CartStore.Lowered | lib/cartStore.ts:51 | definition of the `map` callback of `decrement`, with `Math.max(0, qty - 1)`; used pointwise by `LoweredAll` |
| CartStore.LoweredAll | lib/cartStore.ts:51 | the `map` step of `decrement` keeps the length and applies `Math.max(0, qty - 1)` to the lines with the id |
| CartStore.KeepPositive | lib/cartStore.ts:52 | definition of `filter((it) => it.qty > 0)`; its properties are stated by `KeepPositiveSubset` and `KeepPositiveOfPositive` |
| CartStore.KeepPositiveSubset | lib/cartStore.ts:52 | the `filter` step keeps only lines of the input whose qty is positive |
| CartStore.Decremented | lib/cartStore.ts:49-54 | after `decrement`, no line with a qty of 0 or below is kept, whatever the input |
| CartStore.KeepPositiveOfPositive | lib/cartStore.ts:52 | the filter is the identity on a list whose quantities are all positive |
| CartStore.LoweredAllPresent | lib/cartStore.ts:51 | with unique ids, the `map` step changes only the line at `k` |
| CartStore.DecrementPresent | lib/cartStore.ts:49-54 | under the invariant, `decrement` on a line with qty 1 removes exactly that line; on qty > 1 it lowers that qty by one in place |
| CartStore.DecrementAbsent | lib/cartStore.ts:49-54 | with all quantities positive, `decrement` of an absent id leaves the list unchanged |
| CartStore.DecrementKeepsInvariant | lib/cartStore.ts:49-54 | `decrement` keeps the invariant |
| CartStore.ItemCount | lib/cartStore.ts:58 | `count` as the left fold of the quantities; with all quantities positive it is at least the number of lines |
| CartStore.LineAmount | lib/cartStore.ts:61 | definition of one line's `(it.price ?? 0) * it.qty`; its unit steps are stated by `LineAmountStep` |
| CartStore.ItemTotal | lib/cartStore.ts:60-61 | definition of `total` as the left fold of the line amounts from 0; its properties are stated by `CountTotalConcat`, `AppendAggregates` and the `…Total`/`…Count` lemmas |
| CartStore.CountTotalConcat | lib/cartStore.ts:58-61 | `count` and `total` are additive over concatenation |
| CartStore.AppendAggregates | lib/cartStore.ts:58-61 | an appended line adds its qty to `count` and `(price ?? 0) * qty` to `total` |
| CartStore.LineAmountStep | lib/cartStore.ts:61 | one unit more or less on a line moves its amount by exactly its unit price (`price ?? 0`) |
| CartStore.AddItemCount | lib/cartStore.ts:29-58 | `addItem` raises `count` by exactly one, on any list |
| CartStore.AddItemTotal | lib/cartStore.ts:29-61 | `addItem` raises `total` by the call's price for a new id, or by the existing line's kept price for a re-added id |
| CartStore.RemoveItemCount | lib/cartStore.ts:40-61 | with unique ids, `removeItem` takes that line's qty off `count` and its amount off `total` |
| CartStore.IncrementCount | lib/cartStore.ts:42-61 | with unique ids, `increment` of a present id adds one to `count` and its unit price to `total` |
| CartStore.DecrementCount | lib/cartStore.ts:49-61 | under the invariant, `decrement` of a present id takes one off `count` and its unit price off `total` |
| CartStore.CountZeroIffEmpty | lib/cartStore.ts:58 | with all quantities positive, `count` is 0 exactly when the cart has no line |
| CartStore.Apply | lib/cartStore.ts:29-56 | definition of one call on the store (`addItem`, `removeItem`, `increment`, `decrement` or `clear`) as its new list; kept invariant by `ApplyKeepsInvariant` |
| CartStore.Run | lib/cartStore.ts:29-56 | definition of a sequence of calls applied in order; kept invariant by `RunKeepsInvariant` |
| CartStore.ApplyKeepsInvariant | lib/cartStore.ts:29-56 | each of the five operations keeps the invariant |
| CartStore.RunKeepsInvariant | lib/cartStore.ts:29-56 | any sequence of operations keeps the invariant |
| CartStore.FromEmptyKeepsInvariant | lib/cartStore.ts:27-56 | starting from the empty list, any sequence of calls keeps ids unique and every qty at least 1 |
| CartStore.StorageName | lib/cartStore.ts:64 | the slot name `smartshopping-cart`; written by `Cart.Persist` |
| CartStore.PersistVersion | lib/cartStore.ts:66 | the envelope version 1; written by `Snapshot` and the only one `Restore` accepts |
| CartStore.Snapshot | lib/cartStore.ts:63-67 | definition of what a write stores: the items under version 1; read back by `RestoreSnapshot` |
| CartStore.Restore | lib/cartStore.ts:63-67 | definition of what a start-up reads: the stored items for version 1, else the empty list; stated by `RestoreSnapshot` and `RestoreFallsBackToEmpty` |
| CartStore.RestoreSnapshot | lib/cartStore.ts:63-67 | what is written under version 1 reads back as the same items in the same order |
| CartStore.RestoreFallsBackToEmpty | lib/cartStore.ts:63-67 | a missing slot or another version starts from the initial empty list |
| CartStore.Cart.constructor | lib/cartStore.ts:27 | a fresh store holds no items |
| CartStore.Cart.Rehydrate | lib/cartStore.ts:24-27 | a rehydrated store holds what the slot restores to |
| CartStore.Cart.Count | lib/cartStore.ts:58 | definition of the store's `count()` as `ItemCount` of `items`; how operations change it is stated by `Cart.AddItem`, `Cart.Clear` and the `…Count` lemmas |
| CartStore.Cart.Total | lib/cartStore.ts:60-61 | definition of the store's `total()` as `ItemTotal` of `items`; how operations change it is stated by `Cart.Clear` and the `…Total`/`…Count` lemmas |
| CartStore.Cart.AddItem | lib/cartStore.ts:29-38 | the new `items` is `Added` of the old; the invariant is kept; `count` rises by one |
| CartStore.Cart.RemoveItem | lib/cartStore.ts:40 | the new `items` is `Removed` of the old, with no line of the id; the invariant is kept |
| CartStore.Cart.Increment | lib/cartStore.ts:42-47 | the new `items` is `Incremented` of the old; the invariant is kept |
| CartStore.Cart.Decrement | lib/cartStore.ts:49-54 | the new `items` is `Decremented` of the old, all quantities positive; the invariant is kept |
| CartStore.Cart.Clear | lib/cartStore.ts:56-61 | `clear` empties the list, so `count()` and `total()` are 0 |
| CartStore.Cart.Persist | lib/cartStore.ts:63-67 | the envelope is written under the slot name `smartshopping-cart`, is the version-1 snapshot of the items, and restores to the store's current items |
| CartStore.ReAddScenario | lib/cartStore.ts:29-61 | example: adding `sku-1` at price 30 and then again under another title and price 99 leaves one line with the first title and price and qty 2, so `count` is 2 and `total` 60 |
| LanguageContext.KeyName | contexts/LanguageContext.tsx:12 | definition of the string each `LangKey` is stored and compared as (`en`, `si`, `ar`, `ta`, `hi`, `ur`); used by `ResolveStored` and `ChangeLanguage` |
| LanguageContext.LangOptions | contexts/LanguageContext.tsx:26-33 | definition of `LANG_OPTIONS`, in order, with `rtl: true` on Arabic and Urdu only; its entries are stated by `KeyIndex` and its RTL entries by `IsRtlExactly` |
| LanguageContext.StorageKey | contexts/LanguageContext.tsx:23 | the storage key `@smart-shopping-language`; the key `ChangeLanguage` writes under |
| LanguageContext.FindOption | contexts/LanguageContext.tsx:258 | `LANG_OPTIONS.find` by key: the first entry of the table with that key, or none when no entry has it |
| LanguageContext.KeyIndex | contexts/LanguageContext.tsx:26-33 | every `LangKey` has an entry in `LANG_OPTIONS` |
| LanguageContext.ResolveStored | contexts/LanguageContext.tsx:255-260 | the start-up language is the stored value when it spells one of the six keys, otherwise `'en'` |
| LanguageContext.IsRtl | contexts/LanguageContext.tsx:285 | definition of `!!LANG_OPTIONS.find(l => l.key === lang)?.rtl`; characterised by `IsRtlExactly` |
| LanguageContext.IsRtlExactly | contexts/LanguageContext.tsx:26-33 | the `!!find(...)?.rtl` flag holds exactly for `'ar'` and `'ur'` |
| LanguageContext.ActiveDict | contexts/LanguageContext.tsx:284 | definition of the current language's table, or English's when the current one is missing; its effect on `t` is stated by `TranslateMissingDict` |
| LanguageContext.Translate | contexts/LanguageContext.tsx:284-289 | `t(key)` is the key itself or a value of the current or the English table |
| LanguageContext.TranslateOwnEntry | contexts/LanguageContext.tsx:284-289 | a language whose table has `key` shows its own entry |
| LanguageContext.TranslateEnglishFallback | contexts/LanguageContext.tsx:284-289 | when the current table lacks `key`, the English entry is shown |
| LanguageContext.TranslateKeyFallback | contexts/LanguageContext.tsx:287-289 | when neither table has `key`, the key itself is shown |
| LanguageContext.TranslateMissingDict | contexts/LanguageContext.tsx:284 | a language without a table is translated exactly as English |
| LanguageContext.LanguageProvider.constructor | contexts/LanguageContext.tsx:248-249 | the provider starts on `'en'` and not ready |
| LanguageContext.LanguageProvider.LoadStored | contexts/LanguageContext.tsx:252-272 | a successful read sets the resolved language and applies its RTL flag; a failed read keeps the language and applies nothing; either way `isReady` becomes true |
| LanguageContext.LanguageProvider.ChangeLanguage | contexts/LanguageContext.tsx:274-281 | the language becomes `next` at once and its key is written under `@smart-shopping-language`; the RTL flag is applied only after the write succeeds; `isReady` is untouched |
| LanguageContext.LanguageProvider.IsRTL | contexts/LanguageContext.tsx:285 | `isRTL` is true exactly while Arabic or Urdu is current |
| LanguageContext.LanguageProvider.T | contexts/LanguageContext.tsx:287-289 | definition of the context's `t` as `Translate` at the current language; its fallbacks are stated by the four `Translate…` lemmas |
| PromotedProducts.LikeToggled | app/promoted-products.tsx:124-132 | definition of the `map` callback of `toggleLike`: the product with the id moves its likes by one, down when it was liked; used pointwise by `LikesToggled` |
| PromotedProducts.LikesToggled | app/promoted-products.tsx:123-133 | the product list keeps its length and order, and each product is the `map` callback applied to the old one |
| PromotedProducts.LikedToggled | app/promoted-products.tsx:114-120 | the toggled id is in the new set exactly when it was not in the old one; every other id keeps its membership |
| PromotedProducts.Toggled | app/promoted-products.tsx:113-135 | definition of `toggleLike` as a transition of products and liked set; stated by `ToggleLikeCounts` and `ToggleTwiceRestores` |
| PromotedProducts.ToggleLikeCounts | app/promoted-products.tsx:123-133 | the toggled product's likes go down by one if it was liked and up by one otherwise; other products are unchanged; the length is kept |
| PromotedProducts.LikesToggledUndo | app/promoted-products.tsx:123-133 | moving the likes back with the opposite flag restores every product |
| PromotedProducts.ToggleTwiceRestores | app/promoted-products.tsx:113-135 | two toggles of the same id restore both the liked set and every like counter |
| PromotedProducts.PromotedProductsScreen.constructor | app/promoted-products.tsx:93-95 | the screen starts with no products and an empty liked set |
| PromotedProducts.PromotedProductsScreen.ToggleLike | app/promoted-products.tsx:113-135 | the new liked set is the toggled old one, and the products move their likes by the *old* membership |
| PromotedProducts.MsPerDay | app/promoted-products.tsx:140 | the constant `1000 * 60 * 60 * 24`, the divisor of `DaysRemaining` |
| PromotedProducts.CeilDiv | app/promoted-products.tsx:140 | `Math.ceil(a / b)` for a positive divisor: the least whole number `r` with `a <= r * b` |
| PromotedProducts.DaysRemaining | app/promoted-products.tsx:137-142 | never negative; 0 when the end is not in the future; otherwise the least whole number of days covering the time left (`Math.ceil`) |
| PromotedProducts.DaysRemainingMonotone | app/promoted-products.tsx:137-142 | a later end date never gives fewer days |
| PromoteProduct.Categories | app/promote-product.tsx:39-50 | definition of `categories`, the ten category names in order |
| PromoteProduct.InitialForm | app/promote-product.tsx:60-70 | definition of the form as the screen opens it: every field empty except category (the first category) and duration `7`; stated by `InitialFormRejected` |
| PromoteProduct.UpdateField | app/promote-product.tsx:73-75 | field `f` takes the new value and every other field keeps its value |
| PromoteProduct.IsJsWhitespace | app/promote-product.tsx:138 | definition of the characters `trim()` strips: ECMAScript white space (tab, vertical tab, form feed, space, no-break space, byte-order mark, the Unicode space separators U+1680, U+2000-U+200A, U+202F, U+205F, U+3000) and line terminators (LF, CR, U+2028, U+2029) |
| PromoteProduct.TrimStart | app/promote-product.tsx:138 | definition of the front half of `trim()`; stated by `TrimStartSpec` |
| PromoteProduct.TrimEnd | app/promote-product.tsx:138 | definition of the back half of `trim()`; stated by `TrimEndSpec` |
| PromoteProduct.Trim | app/promote-product.tsx:138 | definition of `s.trim()` as trimming the end of the front-trimmed string; stated by `TrimStartSpec` and `TrimEndSpec` |
| PromoteProduct.IsBlank | app/promote-product.tsx:138 | definition of `!s.trim()`; characterised by `BlankIffAllWhitespace` |
| PromoteProduct.TrimStartSpec | app/promote-product.tsx:138 | trimming the front drops exactly the leading run of JavaScript white space |
| PromoteProduct.TrimEndSpec | app/promote-product.tsx:138 | trimming the end drops exactly the trailing run of JavaScript white space |
| PromoteProduct.TrimStartOfWhitespace | app/promote-product.tsx:138 | a string of white space only trims to nothing |
| PromoteProduct.BlankIffAllWhitespace | app/promote-product.tsx:138-157 | `!s.trim()` holds exactly when every character is white space |
| PromoteProduct.Message | app/promote-product.tsx:139-155 | definition of the alert text shown for each error, one per check |
| PromoteProduct.Rank | app/promote-product.tsx:138-157 | definition of the order the checks run in, vendor name first and contact last; used by `Validate` and `FirstFailureDecides` |
| PromoteProduct.Fails | app/promote-product.tsx:138-157 | definition of the condition under which each check fails (the blank field, or both contact fields blank); used by `Validate` and `FirstFailureDecides` |
| PromoteProduct.Validate | app/promote-product.tsx:137-159 | a pass means no check fails; a failure names a failing check with no earlier check failing |
| PromoteProduct.ValidateForm | app/promote-product.tsx:137-159 | true exactly when vendor name, product name, description and price are non-blank after trim and the email or the phone is non-blank |
| PromoteProduct.FirstFailureDecides | app/promote-product.tsx:138-157 | the error reported is `e` exactly when `e`'s check fails and every earlier check passes |
| PromoteProduct.PromotionDurations | app/promote-product.tsx:52-56 | definition of `promotionDurations`, in order: `7` for 5, `14` for 8, `30` for 12; its fees are stated by `FeeTable` |
| PromoteProduct.DefaultFee | app/promote-product.tsx:172 | the fallback fee 5, used when no duration matches or its price is 0; stated by `FeeTable` |
| PromoteProduct.FindDuration | app/promote-product.tsx:164-166 | `promotionDurations.find` by value: the first entry with that value, or none when no entry has it |
| PromoteProduct.Fee | app/promote-product.tsx:164-172 | definition of the chosen duration's price with the logical-or default of 5, so a missing entry or a price of 0 gives 5; its values are stated by `FeeTable` |
| PromoteProduct.FeeTable | app/promote-product.tsx:164-172 | the fee for `'7'`, `'14'` and `'30'` is 5, 8 and 12; any other duration falls back to 5 |
| PromoteProduct.ContinueToPayment | app/promote-product.tsx:161-176 | checkout parameters exist exactly when the form validates; they carry the form, its duration, and the fee `Fee` gives for that duration (so 5, 8 or 12) |
| PromoteProduct.InitialFormRejected | app/promote-product.tsx:60-70 | the initial form fails first on the vendor name and would be charged 5 |

## Left out

- Persistence middleware (`persist`, `createJSONStorage`, AsyncStorage). It is a foreign library with asynchronous I/O. The stored state is an abstract `Slot(version, items)`. A write stores the items under version 1. A read accepts only version 1 and otherwise starts empty. JSON encoding and storage failures are not modelled.
- Cart.Rehydrate: the store is built from the slot in one step. In the app, `persist` rehydrates asynchronously after `create`, and any mutation made before it finishes is replaced by the stored list; that start-up race is not modelled.
- Floating point: prices are integers in the smallest unit, so `total` makes no claim about JavaScript rounding. `getDaysRemaining` is exact integer arithmetic on milliseconds.
- `Date` and `new Date()`: the clock reading and `promotedUntil` are integer millisecond parameters.
- AsyncStorage reads and writes in the language context: their results are parameters (`StoredRead`, `writeSucceeded`). The `allowRTL`/`forceRTL` calls are given by the returned `rtl` value, and only the value passed to them is modelled.
- LanguageProvider.LoadStored: a platform RTL call that throws after `setLang` is not modelled; only a failed storage read takes the `catch` path. A `changeLanguage` that overlaps the initial load is not modelled either.
- The string tables of the language context (about two hundred lines of text). They are a parameter `dicts` that must contain English.
- Translate: the tables are modelled as maps holding only their own entries. In the app they are plain objects, so a key such as `toString` or `constructor` also finds a property inherited from `Object.prototype` and `t` returns that instead of the key; inherited property names are not modelled. Every call site passes a literal table key.
- LanguageProvider.ChangeLanguage: a failed storage write rejects the promise in the app. The model returns `rtl = None` and does not model the rejection.
- `Alert.alert` in `validateForm`: only the boolean result, the error chosen and its message text are modelled.
- PromotedProductsScreen.ToggleLike: two `toggleLike` calls within one render both read the same stale `likedProducts`. Only calls that each see the previous call's state are modelled.
- The mock product data, loading and refresh of the promoted-products screen, and navigation. The image picker and the rest of the promotion screen's UI are left out too.
- Every other screen, the tRPC route stubs, the camera, barcode, image-picker and ad components, the i18next set-up, and the subscription and theme contexts. They are layout, SDK wrappers or stubs.
