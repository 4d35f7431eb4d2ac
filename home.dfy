/**
 * The home screen's catalog state: the backing list of every decorated
 * product of the last fetch, the visible window the list renders, and the
 * loading flag. Each handler (a fetch with its response, an end-of-list
 * trigger with its delayed append, an add-to-cart tap) is one atomic step.
 */
module Home {

  import opened Wrappers
  import opened Products
  import opened AppContext

  /** Products shown right after a fetch. */
  const InitialBatch: nat := 8
  /** Products appended per end-of-list trigger. */
  const PageSize: nat := 4

  function Min(a: nat, b: nat): nat
  {
    if a <= b then a else b
  }

  /** The screen's state: `products`, `totalProducts`, `loading`. */
  datatype Screen = Screen(products: seq<Product>, totalProducts: seq<Product>, loading: bool)

  /** The relation the screen keeps between its lists: the window is no longer
      than the backing list and, position by position, shows the same item,
      whose flag may have been set since the fetch but never cleared. */
  ghost predicate WindowInvariant(s: Screen)
  {
    && |s.products| <= |s.totalProducts|
    && forall i :: 0 <= i < |s.products| ==>
         SameItem(s.products[i], s.totalProducts[i])
         && (s.totalProducts[i].isInCart ==> s.products[i].isInCart)
  }

  /** The screen before its first fetch completes. */
  function InitialScreen(): Screen
  {
    Screen([], [], true)
  }

  /** `fetchProducts` with the response as input. Both lists are reset first;
      None stands for a response without `data.data`, a missing product list,
      or a request that threw, and leaves them empty. Loading always ends. */
  function FetchStep(response: Option<seq<RawProduct>>, cart: seq<Product>): (r: Screen)
    ensures !r.loading
    ensures response.None? ==> r.products == [] && r.totalProducts == []
    ensures response.Some? ==> r.totalProducts == Decorate(response.value, cart)
    ensures |r.products| == Min(InitialBatch, |r.totalProducts|)
    ensures r.products == r.totalProducts[..|r.products|]
    ensures WindowInvariant(r)
  {
    match response
    case None => Screen([], [], false)
    case Some(raw) =>
      var all := Decorate(raw, cart);
      Screen(all[..Min(InitialBatch, |all|)], all, false)
  }

  /** `fetchMoreProducts` with its delayed append taken as part of the same
      step: nothing happens once the window covers the backing list;
      otherwise the next (at most) `PageSize` products are appended and
      loading ends. */
  function FetchMoreStep(s: Screen): (r: Screen)
    ensures |s.products| >= |s.totalProducts| ==> r == s
    ensures r.totalProducts == s.totalProducts
    ensures |s.products| < |s.totalProducts| ==>
              && !r.loading
              && |r.products| == |s.products| + Min(PageSize, |s.totalProducts| - |s.products|)
              && r.products == s.products + s.totalProducts[|s.products|..|r.products|]
  {
    if |s.products| >= |s.totalProducts| then s
    else
      var n := |s.products|;
      var next := s.totalProducts[n..Min(n + PageSize, |s.totalProducts|)];
      Screen(s.products + next, s.totalProducts, false)
  }

  /** The visible-list half of `addItemInCart(item, index)`: the entry at index
      is flagged. Indexing past the window throws before any state is set, so
      nothing changes then. */
  function AddItemStep(s: Screen, index: nat): (r: Screen)
    ensures r.totalProducts == s.totalProducts && r.loading == s.loading
    ensures |r.products| == |s.products|
    ensures index < |s.products| ==> r.products[index] == s.products[index].(isInCart := true)
    ensures forall i :: 0 <= i < |s.products| && i != index ==> r.products[i] == s.products[i]
    ensures index >= |s.products| ==> r == s
  {
    if index < |s.products| then
      s.(products := s.products[index := s.products[index].(isInCart := true)])
    else s
  }

  /** Each step keeps the window relation. */
  lemma FetchMorePreservesWindow(s: Screen)
    requires WindowInvariant(s)
    ensures WindowInvariant(FetchMoreStep(s))
  {
  }

  lemma AddItemPreservesWindow(s: Screen, index: nat)
    requires WindowInvariant(s)
    ensures WindowInvariant(AddItemStep(s, index))
  {
  }

  // ---------------------------------------------------------------------------
  // Any sequence of screen events.
  // ---------------------------------------------------------------------------

  datatype Event =
    | Fetch(response: Option<seq<RawProduct>>, cart: seq<Product>)
    | EndReached
    | AddItem(index: nat)

  function Apply(s: Screen, e: Event): Screen
  {
    match e
    case Fetch(response, cart) => FetchStep(response, cart)
    case EndReached => FetchMoreStep(s)
    case AddItem(index) => AddItemStep(s, index)
  }

  function Run(s: Screen, events: seq<Event>): Screen
    decreases |events|
  {
    if events == [] then s else Run(Apply(s, events[0]), events[1..])
  }

  /** From the initial screen, every reachable state keeps the window relation:
      the window never outgrows the backing list and always shows its items in
      order. */
  lemma {:induction false} RunPreservesWindow(s: Screen, events: seq<Event>)
    requires WindowInvariant(s)
    ensures WindowInvariant(Run(s, events))
    decreases |events|
  {
    if events != [] {
      match events[0] {
        case Fetch(_, _) =>
        case EndReached => FetchMorePreservesWindow(s);
        case AddItem(index) => AddItemPreservesWindow(s, index);
      }
      RunPreservesWindow(Apply(s, events[0]), events[1..]);
    }
  }

  lemma ReachableKeepsWindow(events: seq<Event>)
    ensures WindowInvariant(Run(InitialScreen(), events))
  {
    RunPreservesWindow(InitialScreen(), events);
  }

  /** Between fetches the backing list never changes, so a product the window
      has not reached yet still carries its fetch-time flag, whatever was
      added to the cart meanwhile. */
  lemma {:induction false} BackingListFixedBetweenFetches(s: Screen, events: seq<Event>)
    requires forall k :: 0 <= k < |events| ==> !events[k].Fetch?
    ensures Run(s, events).totalProducts == s.totalProducts
    decreases |events|
  {
    if events != [] {
      BackingListFixedBetweenFetches(Apply(s, events[0]), events[1..]);
    }
  }

  /** After a successful fetch, no end-of-list trigger or add tap changes the
      backing list: it stays the decorated fetch result, flags included. */
  lemma BackingListIsFetchResultUntilNextFetch(raw: seq<RawProduct>, cart: seq<Product>, events: seq<Event>)
    requires forall k :: 0 <= k < |events| ==> !events[k].Fetch?
    ensures Run(FetchStep(Some(raw), cart), events).totalProducts == Decorate(raw, cart)
  {
    BackingListFixedBetweenFetches(FetchStep(Some(raw), cart), events);
  }

  /** A later page carries the backing list's flag, not a flag set on the
      visible list: window entries past the old window come from the backing
      list as it was at fetch time. */
  lemma AppendedCarryFetchTimeFlag(s: Screen, i: nat)
    requires |s.products| <= i < |FetchMoreStep(s).products|
    ensures FetchMoreStep(s).products[i] == s.totalProducts[i]
  {
  }

  /** Ten fetched products: the window shows eight, one end-of-list trigger
      shows all ten, and a further trigger changes nothing. */
  lemma TenProductScenario(raw: seq<RawProduct>, cart: seq<Product>)
    requires |raw| == 10
    ensures var s := FetchStep(Some(raw), cart);
            && |s.products| == 8
            && FetchMoreStep(s).products == s.totalProducts
            && FetchMoreStep(FetchMoreStep(s)) == FetchMoreStep(s)
  {
  }

  // ---------------------------------------------------------------------------
  // The screen component.
  // ---------------------------------------------------------------------------

  class HomeScreen {
    var products: seq<Product>
    var totalProducts: seq<Product>
    var loading: bool

    function Snapshot(): Screen
      reads this
    {
      Screen(products, totalProducts, loading)
    }

    /** `useState([])`, `useState([])`, `useState(true)`. */
    constructor ()
      ensures Snapshot() == InitialScreen()
    {
      products, totalProducts, loading := [], [], true;
    }

    /** `fetchProducts`, run with the cart the screen saw when the language
        changed and with the response as input. */
    method FetchProducts(response: Option<seq<RawProduct>>, cart: seq<Product>)
      modifies this
      ensures Snapshot() == FetchStep(response, cart)
    {
      loading := true;
      products := [];
      totalProducts := [];
      if response.Some? {
        var decorated := Decorate(response.value, cart);
        products := decorated[..Min(InitialBatch, |decorated|)];
        totalProducts := decorated;
      }
      loading := false;
    }

    /** `addItemInCart(item, index)`: copies the visible list, flags the entry
        at index, stores the copy, then calls the context's `addToCart(item)`
        whatever the save later does. An index past the window throws at the
        flagging step, before either happens. Returns the store write, if any. */
    method AddItemInCart(item: Product, index: nat, app: AppProvider, saved: bool)
        returns (write: Option<seq<Product>>)
      modifies this, app
      ensures Snapshot() == AddItemStep(old(Snapshot()), index)
      ensures index < old(|products|) ==> products[index].isInCart
      ensures index < old(|products|) ==>
                && app.Snapshot() == AddToCartStep(old(app.Snapshot()), item, saved)
                && write == Some(old(app.cart) + [item])
      ensures index >= old(|products|) ==> app.Snapshot() == old(app.Snapshot()) && write == None
    {
      if index >= |products| {
        return None;
      }
      var clone := products;
      clone := clone[index := clone[index].(isInCart := true)];
      products := clone;
      var _, persisted := app.AddToCart(item, saved);
      write := Some(persisted);
    }

    /** `fetchMoreProducts`, with its 1.5 s delayed append as part of the step. */
    method FetchMoreProducts()
      modifies this
      ensures Snapshot() == FetchMoreStep(old(Snapshot()))
    {
      if |products| >= |totalProducts| {
        return;
      }
      loading := true;
      var nextProducts := totalProducts[|products|..Min(|products| + PageSize, |totalProducts|)];
      loading := false;
      products := products + nextProducts;
    }
  }
}
