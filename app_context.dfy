/**
 * The application state container: the cart, the context language and the
 * loading flag that hides the rest of the app until stored settings are read.
 * Each handler is one atomic transition; persistence is an outcome the
 * caller supplies.
 */
module AppContext {

  import opened Wrappers
  import opened Products
  import opened Translation

  /** Storage key of the persisted cart. */
  const CartKey: string := "cart"

  /** What one read of the device store produced: the promise rejected, nothing
      was stored (null), or a stored value. */
  datatype Read<T> = Failed | Absent | Stored(value: T)

  /** The provider's state. */
  datatype Settings = Settings(cart: seq<Product>, language: string, loading: bool)

  /** The stored language, when it is truthy (present and not the empty string). */
  function TruthyLanguage(languageRead: Read<string>): (r: Option<string>)
    ensures r.Some? <==> languageRead.Stored? && languageRead.value != ""
    ensures r.Some? ==> r.value == languageRead.value
  {
    if languageRead.Stored? && languageRead.value != "" then Some(languageRead.value) else None
  }

  /** Initial provider state: empty cart, the i18n language, still loading. */
  function InitialSettings(i18nLanguage: string): Settings
  {
    Settings([], i18nLanguage, true)
  }

  /** `loadSettings`: a rejected read aborts the handler, so nothing is set and
      loading never ends; otherwise the defaults are replaced only by truthy
      stored values (a stored array is truthy even when empty) and loading ends. */
  function LoadSettingsStep(s: Settings, cartRead: Read<seq<Product>>, languageRead: Read<string>): (r: Settings)
    ensures cartRead.Failed? || languageRead.Failed? ==> r == s
    ensures !cartRead.Failed? && !languageRead.Failed? ==> !r.loading
    ensures r.language != s.language ==> TruthyLanguage(languageRead) == Some(r.language)
    ensures !cartRead.Failed? && TruthyLanguage(languageRead).Some? ==> r.language == languageRead.value
    ensures r.cart != s.cart ==> cartRead == Stored(r.cart)
    ensures !languageRead.Failed? && cartRead.Stored? ==> r.cart == cartRead.value
  {
    if cartRead.Failed? || languageRead.Failed? then s
    else
      var language := match TruthyLanguage(languageRead) case Some(l) => l case None => s.language;
      var cart := if cartRead.Stored? then cartRead.value else s.cart;
      Settings(cart, language, false)
  }

  /** `addToCart` with the save outcome: the new cart is the old one with the
      item appended, committed only when the save succeeds. */
  function AddToCartStep(s: Settings, item: Product, saved: bool): (r: Settings)
    ensures |r.cart| == |s.cart| + (if saved then 1 else 0)
    ensures r.cart[..|s.cart|] == s.cart
    ensures saved ==> r.cart[|s.cart|] == item
    ensures r.language == s.language && r.loading == s.loading
  {
    if saved then s.(cart := s.cart + [item]) else s
  }

  /** `setLanguage`: only the context language changes. */
  function SetLanguageStep(s: Settings, lng: string): (r: Settings)
    ensures r.language == lng && r.cart == s.cart && r.loading == s.loading
  {
    s.(language := lng)
  }

  // ---------------------------------------------------------------------------
  // The operations the context exposes, and what any sequence of them does.
  // ---------------------------------------------------------------------------

  /** The two mutations the provider hands to its children. */
  datatype Action = AddToCart(item: Product, saved: bool) | SetLanguage(lng: string)

  function Apply(s: Settings, a: Action): Settings
  {
    match a
    case AddToCart(item, saved) => AddToCartStep(s, item, saved)
    case SetLanguage(lng) => SetLanguageStep(s, lng)
  }

  function Run(s: Settings, actions: seq<Action>): Settings
    decreases |actions|
  {
    if actions == [] then s else Run(Apply(s, actions[0]), actions[1..])
  }

  /** The items of the adds whose save succeeded, in order. */
  function SavedItems(actions: seq<Action>): seq<Product>
    decreases |actions|
  {
    if actions == [] then []
    else
      var rest := SavedItems(actions[1..]);
      match actions[0]
      case AddToCart(item, saved) => if saved then [item] + rest else rest
      case SetLanguage(_) => rest
  }

  /** After any sequence of exposed operations, the cart is the starting cart
      followed by exactly the successfully saved items, and the loading flag is
      untouched. */
  lemma {:induction false} RunCart(s: Settings, actions: seq<Action>)
    ensures Run(s, actions).cart == s.cart + SavedItems(actions)
    ensures Run(s, actions).loading == s.loading
    decreases |actions|
  {
    if actions != [] {
      RunCart(Apply(s, actions[0]), actions[1..]);
      match actions[0]
      case AddToCart(item, saved) =>
        if saved {
          assert s.cart + ([item] + SavedItems(actions[1..])) == (s.cart + [item]) + SavedItems(actions[1..]);
        }
      case SetLanguage(_) =>
    }
  }

  /** No exposed operation removes or rewrites an entry: the cart only grows. */
  lemma CartOnlyGrows(s: Settings, actions: seq<Action>)
    ensures |s.cart| <= |Run(s, actions).cart|
    ensures Run(s, actions).cart[..|s.cart|] == s.cart
  {
    RunCart(s, actions);
  }

  // ---------------------------------------------------------------------------
  // The provider itself.
  // ---------------------------------------------------------------------------

  class AppProvider {
    var cart: seq<Product>
    var language: string
    var loading: bool

    function Snapshot(): Settings
      reads this
    {
      Settings(cart, language, loading)
    }

    /** `useState([])`, `useState(i18n.language)`, `useState(true)`. */
    constructor (i18n: I18n)
      ensures Snapshot() == InitialSettings(i18n.language)
      ensures cart == [] && language == i18n.language && loading
    {
      cart := [];
      language := i18n.language;
      loading := true;
    }

    /** `loadSettings`, with the two store reads given as inputs. A truthy
        stored language is also handed to the i18n instance. */
    method LoadSettings(cartRead: Read<seq<Product>>, languageRead: Read<string>, i18n: I18n)
      modifies this, i18n
      ensures Snapshot() == LoadSettingsStep(old(Snapshot()), cartRead, languageRead)
      ensures i18n.language ==
                if !cartRead.Failed? && !languageRead.Failed? && TruthyLanguage(languageRead).Some?
                then languageRead.value else old(i18n.language)
    {
      if cartRead.Failed? || languageRead.Failed? {
        return;
      }
      if languageRead.Stored? && languageRead.value != "" {
        language := languageRead.value;
        i18n.ChangeLanguage(languageRead.value);
      }
      if cartRead.Stored? {
        cart := cartRead.value;
      }
      loading := false;
    }

    /** `addToCart(item)`: builds the new cart, hands it to the store under
        `CartKey` (the returned value), and commits it only when the save
        succeeded. */
    method AddToCart(item: Product, saved: bool) returns (key: string, persisted: seq<Product>)
      modifies this
      ensures key == CartKey && persisted == old(cart) + [item]
      ensures Snapshot() == AddToCartStep(old(Snapshot()), item, saved)
      ensures cart == if saved then persisted else old(cart)
    {
      var newCart := cart + [item];
      key, persisted := CartKey, newCart;
      if saved {
        cart := newCart;
      }
    }

    /** `setLanguage(lng)`. */
    method SetLanguage(lng: string)
      modifies this
      ensures Snapshot() == SetLanguageStep(old(Snapshot()), lng)
    {
      language := lng;
    }
  }
}
