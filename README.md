# Storefront catalog, cart and language state, in Dafny

This project models the state logic under the views of a mobile storefront
screen. The screen fetches a product catalog and decorates each product with a
synthetic key and an "in cart" flag. It shows a growing window of that catalog.
The app keeps a cart and a language preference, each persisted on the device.
It also shows a discount badge for each product.

The model has these parts:

- `Products` (`products.dfy`). Holds the server's product record and the
  decorated record. The synthetic key `uniquieId` is the product id's text
  followed by the product's position, written in decimal. The module also holds
  the decoration step of a fetch. It proves that the key is not unique in
  general, and that it is unique when all ids have the same length.
- `Home` (`home.dfy`). Holds the home screen's `products` (the visible
  window), `totalProducts` (the backing list) and `loading`. It is a class
  whose methods are proved against the pure step functions `FetchStep`,
  `FetchMoreStep` and `AddItemStep`. It proves that every reachable state keeps
  the window invariant. The invariant says the window is no longer than the
  backing list and shows the backing list's items in order. A shown item's
  flag can be set after the fetch but is never cleared.
- `AppContext` (`app_context.dfy`). Holds the provider's `cart`, `language`
  and `loading`. It is a class proved against `LoadSettingsStep`,
  `AddToCartStep` and `SetLanguageStep`. It proves that across any sequence of
  exposed operations the cart only grows. The cart grows by exactly the items
  whose save succeeded.
- `LanguageSelector` (`language_selector.dfy`). Holds the two language tabs
  and the `changeLanguage` handler. It covers the no-op guard, the immediate
  i18n switch, and the context switch that waits on the save.
- `Translation` (`translation.dfy`). Holds the only part of the i18n
  instance's state that the core uses: its active language.
- `HelperFunctions` (`helper_functions.dfy`). Holds the discount percentage
  over exact reals. The magnitude is rounded half up, so negative ties round
  away from zero (-2.5 gives "-3"), and the sign is rendered as `toFixed(0)`
  renders it.

Inputs that the source gets from the outside world are parameters here:

- the HTTP response is an `Option<seq<RawProduct>>`;
- each storage read is a `Read<T>`, meaning it failed, was absent or returned a value;
- each storage write is a boolean outcome `saved`.

The write methods return the value they pass to the store.

The field is named `uniquieId`, and the comment at src/screens/Home.js:47 says
the id is added because the server sends none, so it is meant to tell entries
apart. The code does not guarantee that, because it joins id and index with no
separator. `Products.KeyCollision` and
`Products.DecoratedKeysCanCollide` show a collision. `Products.DecoratedKeysUnique`
proves uniqueness under the stated assumption that all ids in a fetch have the
same length.

## Model

| member | source | states |
|---|---|---|
| Products.DecimalString | src/screens/Home.js:54 | an index renders as at least one decimal digit, with no leading zero, and exactly "0" for zero |
| Products.ParseDecimalString | src/screens/Home.js:54 | parsing an index's rendering gives the index back |
| Products.DecimalStringInjective | src/screens/Home.js:54 | distinct indices render differently |
| Products.KeyCollision | src/screens/Home.js:50-54 | id "1" at index 12 and id "11" at index 2 get the same key "112" |
| Products.KeyInjectiveForEqualWidth | src/screens/Home.js:54 | for ids of equal length, equal keys mean equal ids and equal indices |
| Products.Key | src/screens/Home.js:54 | the key starts with the id and ends with digits that read back as the index, with no leading zero, and exactly "0" for index 0 |
| Products.InCart | src/screens/Home.js:49-51 | the cart check is true exactly when some cart entry has the given key |
| Products.Decorate | src/screens/Home.js:48-57 | decoration keeps the length and every server field, sets the key to id plus index, and sets the flag exactly when some cart entry has that key |
| Products.DecoratedKeysUnique | src/screens/Home.js:47-57 | when every id in the fetch has the same length, distinct positions get distinct keys |
| Products.DecoratedKeysCanCollide | src/screens/Home.js:47-57 | without that assumption, two positions of one fetch can get the same key |
| Home.FetchStep | src/screens/Home.js:39-66 | a failed or malformed response leaves both lists empty; a good one makes the backing list the decorated response and the window its first min(8, n) entries; loading ends false either way |
| Home.FetchMoreStep | src/screens/Home.js:103-118 | a no-op once the window covers the backing list; otherwise it appends the next min(4, remaining) backing entries, leaves the backing list alone and ends loading |
| Home.AddItemStep | src/screens/Home.js:70-73 | only entry `index` of the window changes, and it gets its flag set; length, other entries and the backing list are unchanged; an index past the window changes nothing |
| Home.FetchMorePreservesWindow | src/screens/Home.js:103-118 | the end-of-list step keeps the window invariant |
| Home.AddItemPreservesWindow | src/screens/Home.js:70-73 | the flagging step keeps the window invariant |
| Home.RunPreservesWindow | src/screens/Home.js:39-118 | any sequence of fetches, end-of-list triggers and add taps keeps the window invariant |
| Home.ReachableKeepsWindow | src/screens/Home.js:25-27 | every state reachable from the initial empty, loading screen satisfies the window invariant |
| Home.BackingListFixedBetweenFetches | src/screens/Home.js:70-118 | without a fetch, the backing list never changes |
| Home.BackingListIsFetchResultUntilNextFetch | src/screens/Home.js:58-118 | after a successful fetch, any sequence of end-of-list triggers and add taps leaves the backing list equal to the decorated fetch result, fetch-time flags included |
| Home.AppendedCarryFetchTimeFlag | src/screens/Home.js:108-116 | entries a page appends are the backing list's entries, with their fetch-time flags |
| Home.TenProductScenario | src/screens/Home.js:58-117 | with 10 fetched products the window shows 8, one trigger shows all 10, and a further trigger changes nothing |
| Home.HomeScreen.constructor | src/screens/Home.js:25-27 | both lists start empty and loading starts true |
| Home.HomeScreen.FetchProducts | src/screens/Home.js:39-66 | the new screen state is the fetch step of the response and cart |
| Home.HomeScreen.AddItemInCart | src/screens/Home.js:70-75 | flags the window entry, then calls the context's add whatever the save outcome, and returns the cart write; an out-of-range index throws before any effect |
| Home.HomeScreen.FetchMoreProducts | src/screens/Home.js:103-118 | the new screen state is the end-of-list step of the old one |
| AppContext.TruthyLanguage | src/context/AppContext.js:44 | a stored language counts only when it is present and non-empty |
| AppContext.LoadSettingsStep | src/context/AppContext.js:40-52 | a rejected read changes nothing; otherwise language changes only to a truthy stored language, cart changes only to a stored cart, and loading ends false |
| AppContext.AddToCartStep | src/context/AppContext.js:56-65 | on a successful save the cart grows by exactly the item with earlier entries unchanged; on a failed save nothing changes |
| AppContext.SetLanguageStep | src/context/AppContext.js:34 | only the context language changes |
| AppContext.RunCart | src/context/AppContext.js:56-77 | after any sequence of exposed operations the cart is the old cart followed by exactly the successfully saved items |
| AppContext.CartOnlyGrows | src/context/AppContext.js:56-77 | no sequence of exposed operations shortens the cart or alters an existing entry |
| AppContext.AppProvider.constructor | src/context/AppContext.js:33-35 | the cart starts empty, the language starts as the i18n language, and loading starts true |
| AppContext.AppProvider.LoadSettings | src/context/AppContext.js:40-52 | the new state is the load step, and a truthy stored language is also given to i18n |
| AppContext.AppProvider.AddToCart | src/context/AppContext.js:56-65 | writes exactly old cart + [item] under key "cart" and commits it only when the save succeeds |
| AppContext.AppProvider.SetLanguage | src/context/AppContext.js:34 | only the context language changes |
| LanguageSelector.SortNames | src/components/LanguageSelector.js:12-21 | the codes the tabs report, one per tab, in order; AnimatedTabs reports a tab's code through `onChangeLanguage(val.sortName)` at src/components/AnimatedTabs.js:76-79 |
| LanguageSelector.LanguageOptionsAreEnglishThenArabic | src/components/LanguageSelector.js:12-21 | the language options are exactly "en" then "ar" |
| LanguageSelector.ChangeLanguageStep | src/components/LanguageSelector.js:48-54 | i18n always ends on the chosen language; choosing the current one changes nothing; the context ends on the choice exactly when it already held it or the choice was new and its save succeeded, and otherwise keeps its old value |
| LanguageSelector.CurrentLanguageIsNoOp | src/components/LanguageSelector.js:48-50 | choosing the current i18n language changes nothing |
| LanguageSelector.OtherLanguageSwitches | src/components/LanguageSelector.js:51-54 | another choice moves i18n to it at once, and moves the context to it exactly when the save succeeds |
| LanguageSelector.SyncKeptIffSavedOrCurrent | src/components/LanguageSelector.js:51-54 | starting in sync, i18n and context stay in sync exactly when the choice was current or the save succeeded |
| LanguageSelector.ChangeLanguage | src/components/LanguageSelector.js:47-55 | a current choice does nothing and issues no save; otherwise it switches i18n, returns the write of the chosen language under key "language", and sets the context only on success |
| Translation.I18n.ChangeLanguage | src/components/LanguageSelector.js:51 | the i18n instance's active language becomes the chosen one at once |
| HelperFunctions.RoundHalfUp | src/utils/helperFunctions.js:20 | rounds to the nearest integer, ties going up |
| HelperFunctions.RoundHalfUpIsNearest | src/utils/helperFunctions.js:7 | no integer is closer than the rounded value |
| HelperFunctions.ToFixed0 | src/utils/helperFunctions.js:20 | the result starts with "-" exactly for a negative value, and the rest is decimal digits, with no leading zero and exactly "0" for zero, that read back as the magnitude rounded to nearest, ties up |
| HelperFunctions.CalculatePercentageOff | src/utils/helperFunctions.js:18-21 | a zero compare price gives "NaN", "-Infinity" or "Infinity" according to the sign of the minimum price; otherwise the badge is signed exactly when the exact percentage is negative, and its digits, with no leading zero and exactly "0" for zero, read back as the exact percentage's magnitude rounded to nearest |
| HelperFunctions.DocumentedExamples | src/utils/helperFunctions.js:9-15 | (80, 100) gives "20" and (50, 100) gives "50" |
| HelperFunctions.EqualPricesGiveZero | src/utils/helperFunctions.js:19-20 | equal non-zero prices give "0" (two zero prices give "NaN") |
| HelperFunctions.ZeroMinimumGivesHundred | src/utils/helperFunctions.js:19-20 | a zero minimum price with a non-zero compare price gives "100" |
| HelperFunctions.PercentageOffInRange | src/utils/helperFunctions.js:19-20 | for 0 <= min <= compare with compare > 0, the badge is the decimal rendering of the integer nearest the exact percentage, and that integer lies in [0, 100] |

## Left out

- The network GET against the product URL is I/O. Its response is an input.
  `None` covers a response without `data.data`, one without a product list, and
  a request that threw.
- Device storage and JSON serialization are not modelled. A read is a
  `Read<T>` and a write is a `saved` outcome. The deep copies done through JSON
  are plain value semantics here. The model ignores that JSON drops members
  such as `undefined` fields.
- AppContext.AppProvider.LoadSettings: assumes the stored cart parses to an
  array of product records. In the source, `JSON.parse` can return any JSON value.
- Home.HomeScreen.FetchMoreProducts: treats the 1.5 s delayed append as part of
  the same step. So `loading` being true during the delay cannot be seen, and
  neither can the append overwriting a flag set during the delay (the callback
  captures the old `products`).
- Timing and races are not modelled: the 300 ms tap delay, repeated
  end-of-list triggers while an append is pending, and a stale fetch response
  overwriting a newer one. Each handler is one atomic step.
- The refetch that follows a context-language change is not modelled as one
  composed step. It depends on React effect-dependency semantics, so a fetch is
  its own event, taking the cart as an input. `keyExtractor` is not modelled.
- HelperFunctions.CalculatePercentageOff: uses exact reals, not IEEE doubles,
  so a tie produced by floating-point error may round differently. Magnitudes
  of 10^21 or more, which `toFixed` prints in exponent form, are not
  distinguished.
- The i18n library is reduced to its active language. Its configuration, its
  translation tables and device language detection are not modelled.
- Rendering, animation, styling, fonts and the splash screen are not modelled,
  nor are the components ProductItem, PriceComp, OfferComp, AnimatedTabs,
  AnimatedCarousel, HeaderComp and WrapperContainer. ProductItem only requests
  a badge when the compare price is positive. The model covers every price pair
  anyway.
