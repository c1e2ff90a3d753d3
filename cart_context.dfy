/** The shopping-cart store: the ordered list of cart lines, the four
    operations on it, and the protocol that hydrates it from browser storage
    once and writes it back after every change. */
module CartContext {
  import opened Wrappers
  import opened Sequences
  import opened ProductTypes

  /** One cart line. `selectedSize == None` is JavaScript's `undefined`, a
      value distinct from every string, the empty string included. */
  datatype CartItem = CartItem(product: Product, quantity: int, selectedSize: Option<string>)

  /** A line's identity: the exact pair (product id, size). */
  function Key(item: CartItem): (string, Option<string>) {
    (item.product.id, item.selectedSize)
  }

  predicate Matches(item: CartItem, productId: string, size: Option<string>) {
    item.product.id == productId && item.selectedSize == size
  }

  /** What `prev.find(...)` finds something for. */
  predicate HasLine(cart: seq<CartItem>, productId: string, size: Option<string>) {
    exists i | 0 <= i < |cart| :: Matches(cart[i], productId, size)
  }

  /** No two lines share an identity. */
  predicate UniqueKeys(cart: seq<CartItem>) {
    forall i, j | 0 <= i < j < |cart| :: Key(cart[i]) != Key(cart[j])
  }

  /** Every line carries a size (the shape of lines the catalog adds). */
  predicate AllSized(cart: seq<CartItem>) {
    forall i | 0 <= i < |cart| :: cart[i].selectedSize.Some?
  }

  /** The new cart of `addToCart`: merge into the lines with the same
      identity, or append a new line at the end. */
  function AddItem(prev: seq<CartItem>, product: Product, quantity: int, size: Option<string>): (r: seq<CartItem>)
    ensures HasLine(prev, product.id, size) ==>
      && |r| == |prev|
      && forall i | 0 <= i < |prev| ::
           && r[i].product == prev[i].product
           && r[i].selectedSize == prev[i].selectedSize
           && r[i].quantity == prev[i].quantity + (if Matches(prev[i], product.id, size) then quantity else 0)
    ensures !HasLine(prev, product.id, size) ==> r == prev + [CartItem(product, quantity, size)]
    ensures HasLine(r, product.id, size)
  {
    if HasLine(prev, product.id, size) then
      var r := seq(|prev|, i requires 0 <= i < |prev| =>
        if Matches(prev[i], product.id, size) then prev[i].(quantity := prev[i].quantity + quantity) else prev[i]);
      var i :| 0 <= i < |prev| && Matches(prev[i], product.id, size);
      assert Matches(r[i], product.id, size);
      r
    else
      var r := prev + [CartItem(product, quantity, size)];
      assert Matches(r[|prev|], product.id, size);
      r
  }

  /** The new cart of `removeFromCart`: keep the lines whose id or size
      differs. No line of the pair is left, and removing an absent pair
      changes nothing. */
  function RemoveItems(prev: seq<CartItem>, productId: string, size: Option<string>): (r: seq<CartItem>)
    ensures !HasLine(r, productId, size)
    ensures !HasLine(prev, productId, size) ==> r == prev
  {
    var keep := (x: CartItem) => !Matches(x, productId, size);
    var r := Filter(prev, keep);
    FilterCounts(prev, keep);
    assert !HasLine(r, productId, size) by {
      forall i | 0 <= i < |r| ensures !Matches(r[i], productId, size) {
        assert r[i] in multiset(r);
      }
    }
    if !HasLine(prev, productId, size) then
      FilterKeepingAll(prev, keep);
      r
    else r
  }

  /** Removing keeps every other line, as often as it was there, in its
      original order. */
  lemma RemoveKeepsOthers(prev: seq<CartItem>, productId: string, size: Option<string>)
    ensures IsSubsequence(RemoveItems(prev, productId, size), prev)
    ensures forall x :: multiset(RemoveItems(prev, productId, size))[x] == if Matches(x, productId, size) then 0 else multiset(prev)[x]
  {
    var keep := (x: CartItem) => !Matches(x, productId, size);
    FilterIsSubsequence(prev, keep);
    FilterCounts(prev, keep);
  }

  /** The new cart of `updateQuantity`: the matching lines take `quantity`
      exactly as given (the store applies no floor). */
  function UpdateItems(prev: seq<CartItem>, productId: string, quantity: int, size: Option<string>): (r: seq<CartItem>)
    ensures |r| == |prev|
    ensures forall i | 0 <= i < |prev| ::
      && r[i].product == prev[i].product
      && r[i].selectedSize == prev[i].selectedSize
      && r[i].quantity == if Matches(prev[i], productId, size) then quantity else prev[i].quantity
    ensures !HasLine(prev, productId, size) ==> r == prev
  {
    seq(|prev|, i requires 0 <= i < |prev| =>
      if Matches(prev[i], productId, size) then prev[i].(quantity := quantity) else prev[i])
  }

  /** A call a screen makes on the store with a product id it read from a line. */
  datatype StoreCall =
    | Update(productId: string, quantity: int, size: Option<string>)
    | Remove(productId: string, size: Option<string>)

  function Apply(cart: seq<CartItem>, call: StoreCall): seq<CartItem> {
    match call
    case Update(id, q, size) => UpdateItems(cart, id, q, size)
    case Remove(id, size) => RemoveItems(cart, id, size)
  }

  // ---------------------------------------------------------------------
  // Properties of the operations
  // ---------------------------------------------------------------------

  /** Adding keeps identities unique. */
  lemma AddKeepsKeysUnique(prev: seq<CartItem>, product: Product, quantity: int, size: Option<string>)
    requires UniqueKeys(prev)
    ensures UniqueKeys(AddItem(prev, product, quantity, size))
  {
    var r := AddItem(prev, product, quantity, size);
    if HasLine(prev, product.id, size) {
      assert forall i | 0 <= i < |r| :: Key(r[i]) == Key(prev[i]);
    } else {
      forall i, j | 0 <= i < j < |r| ensures Key(r[i]) != Key(r[j]) {
        if j == |prev| {
          assert !Matches(prev[i], product.id, size);
        }
      }
    }
  }

  /** Removing and updating keep identities unique. */
  lemma CallKeepsKeysUnique(cart: seq<CartItem>, call: StoreCall)
    requires UniqueKeys(cart)
    ensures UniqueKeys(Apply(cart, call))
  {
    match call
    case Update(id, q, size) =>
      var r := UpdateItems(cart, id, q, size);
      assert forall i | 0 <= i < |r| :: Key(r[i]) == Key(cart[i]);
    case Remove(id, size) =>
      RemoveKeepsOthers(cart, id, size);
      SubsequenceKeepsKeysUnique(RemoveItems(cart, id, size), cart);
  }

  lemma {:induction false} SubsequenceKeepsKeysUnique(s: seq<CartItem>, t: seq<CartItem>)
    requires IsSubsequence(s, t) && UniqueKeys(t)
    ensures UniqueKeys(s)
    decreases |t|
  {
    if s != [] {
      assert t != [];
      assert UniqueKeys(t[1..]) by {
        forall i, j | 0 <= i < j < |t[1..]| ensures Key(t[1..][i]) != Key(t[1..][j]) {
          assert t[1..][i] == t[i + 1] && t[1..][j] == t[j + 1];
        }
      }
      if s[0] == t[0] && IsSubsequence(s[1..], t[1..]) {
        SubsequenceKeepsKeysUnique(s[1..], t[1..]);
        SubsequenceMembers(s[1..], t[1..]);
        forall i, j | 0 <= i < j < |s| ensures Key(s[i]) != Key(s[j]) {
          if i == 0 {
            assert s[j] == s[1..][j - 1];
            var k :| 0 <= k < |t[1..]| && t[1..][k] == s[j];
            assert Key(t[0]) != Key(t[k + 1]);
          } else {
            assert s[i] == s[1..][i - 1] && s[j] == s[1..][j - 1];
          }
        }
      } else {
        SubsequenceKeepsKeysUnique(s, t[1..]);
      }
    }
  }

  /** Merge law: two adds of the same product and size equal one add of the
      summed quantity, whether or not the line existed before. */
  lemma AddTwiceMerges(prev: seq<CartItem>, product: Product, q1: int, q2: int, size: Option<string>)
    ensures AddItem(AddItem(prev, product, q1, size), product, q2, size) == AddItem(prev, product, q1 + q2, size)
  {
    var once := AddItem(prev, product, q1, size);
    var twice := AddItem(once, product, q2, size);
    var direct := AddItem(prev, product, q1 + q2, size);
    assert HasLine(once, product.id, size);
    if HasLine(prev, product.id, size) {
      assert |twice| == |direct|;
      forall i | 0 <= i < |twice| ensures twice[i] == direct[i] {
        assert Matches(once[i], product.id, size) == Matches(prev[i], product.id, size);
      }
    } else {
      assert |twice| == |direct|;
      forall i | 0 <= i < |twice| ensures twice[i] == direct[i] {
        if i < |prev| {
          assert !Matches(prev[i], product.id, size);
        }
      }
    }
  }

  /** With unique identities, a first add followed by a second add leaves
      exactly one line for the pair, at the end, carrying both quantities. */
  lemma TwoAddsOneLine(prev: seq<CartItem>, product: Product, q1: int, q2: int, size: Option<string>)
    requires !HasLine(prev, product.id, size)
    ensures AddItem(AddItem(prev, product, q1, size), product, q2, size) == prev + [CartItem(product, q1 + q2, size)]
  {
    AddTwiceMerges(prev, product, q1, q2, size);
  }

  /** Identity separation: adding a product under one size leaves every line
      of the same product under another size (or none) untouched. */
  lemma AddLeavesOtherSizes(prev: seq<CartItem>, product: Product, quantity: int, size: Option<string>, other: Option<string>, i: int)
    requires other != size && 0 <= i < |prev| && Matches(prev[i], product.id, other)
    ensures AddItem(prev, product, quantity, size)[i] == prev[i]
  {
  }

  /** Removing a line that was just added (and did not exist before)
      restores the cart. */
  lemma {:induction false} RemoveUndoesFreshAdd(prev: seq<CartItem>, product: Product, quantity: int, size: Option<string>)
    requires !HasLine(prev, product.id, size)
    ensures RemoveItems(AddItem(prev, product, quantity, size), product.id, size) == prev
  {
    var keep := (x: CartItem) => !Matches(x, product.id, size);
    FilterKeepingAll(prev, keep);
    FilterAppend(prev, [CartItem(product, quantity, size)], keep);
  }

  /** With unique identities, line `i` is the only line of its pair. */
  lemma OnlyLineOfItsKey(cart: seq<CartItem>, productId: string, size: Option<string>, i: int)
    requires UniqueKeys(cart) && 0 <= i < |cart| && Matches(cart[i], productId, size)
    ensures forall j | 0 <= j < |cart| && j != i :: !Matches(cart[j], productId, size)
  {
    forall j | 0 <= j < |cart| && j != i ensures !Matches(cart[j], productId, size) {
      if j < i { assert Key(cart[j]) != Key(cart[i]); } else { assert Key(cart[i]) != Key(cart[j]); }
    }
  }

  /** With unique identities, merging into the present line `i` changes
      that line's quantity and nothing else. */
  lemma MergeChangesOneLine(cart: seq<CartItem>, product: Product, quantity: int, size: Option<string>, i: int)
    requires UniqueKeys(cart) && 0 <= i < |cart| && Matches(cart[i], product.id, size)
    ensures AddItem(cart, product, quantity, size) == cart[i := cart[i].(quantity := cart[i].quantity + quantity)]
  {
    OnlyLineOfItsKey(cart, product.id, size, i);
  }

  /** With unique identities, updating the present line `i` changes that
      line's quantity and nothing else. */
  lemma UpdateChangesOneLine(cart: seq<CartItem>, productId: string, quantity: int, size: Option<string>, i: int)
    requires UniqueKeys(cart) && 0 <= i < |cart| && Matches(cart[i], productId, size)
    ensures UpdateItems(cart, productId, quantity, size) == cart[i := cart[i].(quantity := quantity)]
  {
    OnlyLineOfItsKey(cart, productId, size, i);
  }

  /** With unique identities, removing a present pair drops exactly its
      one line and keeps the lines before and after it in order. */
  lemma RemoveDropsOneLine(cart: seq<CartItem>, productId: string, size: Option<string>, i: int)
    requires UniqueKeys(cart) && 0 <= i < |cart| && Matches(cart[i], productId, size)
    ensures RemoveItems(cart, productId, size) == cart[..i] + cart[i + 1..]
  {
    var keep := (x: CartItem) => !Matches(x, productId, size);
    var before, after := cart[..i], cart[i + 1..];
    OnlyLineOfItsKey(cart, productId, size, i);
    forall j | 0 <= j < |before| ensures keep(before[j]) {
      assert before[j] == cart[j];
    }
    forall j | 0 <= j < |after| ensures keep(after[j]) {
      assert after[j] == cart[i + 1 + j];
    }
    assert cart == before + [cart[i]] + after;
    FilterDropsOne(before, cart[i], after, keep);
  }

  /** A second update of the same identity overrides the first. */
  lemma UpdateOverrides(cart: seq<CartItem>, productId: string, q1: int, q2: int, size: Option<string>)
    ensures UpdateItems(UpdateItems(cart, productId, q1, size), productId, q2, size) == UpdateItems(cart, productId, q2, size)
  {
    var once := UpdateItems(cart, productId, q1, size);
    assert forall i | 0 <= i < |cart| :: Matches(once[i], productId, size) == Matches(cart[i], productId, size);
  }

  /** A store call without a size never touches a sized line. */
  lemma UnsizedCallSkipsSizedLine(cart: seq<CartItem>, call: StoreCall, i: int)
    requires call.size == None && 0 <= i < |cart| && cart[i].selectedSize.Some?
    ensures match call
      case Update(_, _, _) => Apply(cart, call)[i] == cart[i]
      case Remove(_, _) => multiset(Apply(cart, call))[cart[i]] == multiset(cart)[cart[i]]
  {
    if call.Remove? {
      RemoveKeepsOthers(cart, call.productId, call.size);
    }
  }

  /** On a cart whose every line is sized (every line the catalog adds is),
      a store call without a size changes nothing at all. */
  lemma UnsizedCallIsNoOp(cart: seq<CartItem>, call: StoreCall)
    requires AllSized(cart) && call.size == None
    ensures Apply(cart, call) == cart
  {
    assert !HasLine(cart, call.productId, None);
  }

  /** Adding with a size keeps a cart all-sized. */
  lemma SizedAddKeepsAllSized(cart: seq<CartItem>, product: Product, quantity: int, size: string)
    requires AllSized(cart)
    ensures AllSized(AddItem(cart, product, quantity, Some(size)))
  {
  }

  // ---------------------------------------------------------------------
  // Persistence
  // ---------------------------------------------------------------------

  /** The storage key the cart lives under. */
  const CartKey: string := "cart"

  /** What can sit under a storage key: the JSON text of a cart (modelled by
      the lines it encodes, serialisation being an identity round trip), the
      empty string, or text that does not parse. */
  datatype StoredValue = Serialized(lines: seq<CartItem>) | EmptyText | Malformed

  /** What the load effect makes of the stored value. */
  datatype Hydration = NothingStored | Parsed(lines: seq<CartItem>) | ParseThrows

  /** `localStorage.getItem("cart")` followed by the `if (stored)` test and
      `JSON.parse`: a missing key and the (falsy) empty string mean "nothing
      stored"; unparsable text throws. */
  function ReadCart(entries: map<string, StoredValue>): (h: Hydration)
    ensures CartKey !in entries ==> h == NothingStored
    ensures CartKey in entries ==>
      match entries[CartKey]
      case Serialized(lines) => h == Parsed(lines)
      case EmptyText => h == NothingStored
      case Malformed => h == ParseThrows
  {
    if CartKey !in entries then NothingStored
    else match entries[CartKey]
      case Serialized(lines) => Parsed(lines)
      case EmptyText => NothingStored
      case Malformed => ParseThrows
  }

  /** Save then load gives the same lines back, whatever else is stored. */
  lemma SaveThenLoad(entries: map<string, StoredValue>, cart: seq<CartItem>)
    ensures ReadCart(entries[CartKey := Serialized(cart)]) == Parsed(cart)
  {
  }

  /** The browser's key-value store, shared with the rest of the application. */
  class LocalStorage {
    var entries: map<string, StoredValue>

    constructor (initial: map<string, StoredValue>)
      ensures entries == initial
    {
      entries := initial;
    }
  }

  /** `CartProvider`: the cart state, the `hasLoaded` flag and the storage
      the two effects read and write. */
  class CartProvider {
    var cart: seq<CartItem>
    var hasLoaded: bool
    const storage: LocalStorage

    /** Once hydrated, storage holds exactly the in-memory cart. */
    ghost predicate Synced()
      reads this, storage
    {
      hasLoaded ==> CartKey in storage.entries && storage.entries[CartKey] == Serialized(cart)
    }

    /** The initial render: an empty cart, not yet loaded. */
    constructor (storage: LocalStorage)
      ensures this.storage == storage
      ensures cart == [] && !hasLoaded
    {
      this.storage := storage;
      cart := [];
      hasLoaded := false;
    }

    /** The load effect. It sets the cart to a parsed stored value and then
        the flag; a parse error throws before the flag is set. */
    method LoadEffect() returns (thrown: bool)
      modifies this
      ensures thrown <==> ReadCart(storage.entries) == ParseThrows
      ensures thrown ==> cart == old(cart) && hasLoaded == old(hasLoaded)
      ensures !thrown ==> hasLoaded
      ensures ReadCart(storage.entries) == NothingStored ==> cart == old(cart)
      ensures ReadCart(storage.entries).Parsed? ==> cart == ReadCart(storage.entries).lines
    {
      var stored := ReadCart(storage.entries);
      if stored == ParseThrows {
        thrown := true;
        return;
      }
      if stored.Parsed? {
        cart := stored.lines;
      }
      thrown := false;
      hasLoaded := true;
    }

    /** The save effect: writes the whole cart under the key, but only after
        the load effect has set the flag. */
    method SaveEffect()
      modifies storage
      ensures hasLoaded ==> storage.entries == old(storage.entries)[CartKey := Serialized(cart)]
      ensures !hasLoaded ==> storage.entries == old(storage.entries)
      ensures Synced()
    {
      if hasLoaded {
        storage.entries := storage.entries[CartKey := Serialized(cart)];
      }
    }

    /** Mounting the provider: the load effect, then the save effect that the
        resulting state change triggers. An absent key leaves the cart empty
        and then stores that empty cart. */
    method Mount() returns (thrown: bool)
      requires cart == [] && !hasLoaded
      modifies this, storage
      ensures thrown <==> old(ReadCart(storage.entries)) == ParseThrows
      ensures thrown ==> cart == [] && !hasLoaded && storage.entries == old(storage.entries)
      ensures !thrown ==> hasLoaded && Synced()
      ensures !thrown ==> storage.entries == old(storage.entries)[CartKey := Serialized(cart)]
      ensures old(ReadCart(storage.entries)) == NothingStored ==> cart == []
      ensures old(ReadCart(storage.entries)).Parsed? ==> cart == old(ReadCart(storage.entries)).lines
    {
      thrown := LoadEffect();
      SaveEffect();
    }

    /** `addToCart`, followed by the save effect. */
    method AddToCart(product: Product, quantity: int, selectedSize: Option<string>)
      modifies this, storage
      ensures cart == AddItem(old(cart), product, quantity, selectedSize)
      ensures hasLoaded == old(hasLoaded)
      ensures hasLoaded ==> storage.entries == old(storage.entries)[CartKey := Serialized(cart)]
      ensures !hasLoaded ==> storage.entries == old(storage.entries)
      ensures Synced()
    {
      cart := AddItem(cart, product, quantity, selectedSize);
      SaveEffect();
    }

    /** `removeFromCart`, followed by the save effect. */
    method RemoveFromCart(productId: string, selectedSize: Option<string>)
      modifies this, storage
      ensures cart == RemoveItems(old(cart), productId, selectedSize)
      ensures hasLoaded == old(hasLoaded)
      ensures hasLoaded ==> storage.entries == old(storage.entries)[CartKey := Serialized(cart)]
      ensures !hasLoaded ==> storage.entries == old(storage.entries)
      ensures Synced()
    {
      cart := RemoveItems(cart, productId, selectedSize);
      SaveEffect();
    }

    /** `updateQuantity`, followed by the save effect. */
    method UpdateQuantity(productId: string, quantity: int, selectedSize: Option<string>)
      modifies this, storage
      ensures cart == UpdateItems(old(cart), productId, quantity, selectedSize)
      ensures hasLoaded == old(hasLoaded)
      ensures hasLoaded ==> storage.entries == old(storage.entries)[CartKey := Serialized(cart)]
      ensures !hasLoaded ==> storage.entries == old(storage.entries)
      ensures Synced()
    {
      cart := UpdateItems(cart, productId, quantity, selectedSize);
      SaveEffect();
    }

    /** `clearCart`, followed by the save effect. Clearing twice is clearing once. */
    method ClearCart()
      modifies this, storage
      ensures cart == []
      ensures hasLoaded == old(hasLoaded)
      ensures hasLoaded ==> storage.entries == old(storage.entries)[CartKey := Serialized([])]
      ensures !hasLoaded ==> storage.entries == old(storage.entries)
      ensures Synced()
    {
      cart := [];
      SaveEffect();
    }

    /** Any of the calls the drawer and checkout screens make. */
    method Perform(call: StoreCall)
      modifies this, storage
      ensures cart == Apply(old(cart), call)
      ensures hasLoaded == old(hasLoaded)
      ensures hasLoaded ==> storage.entries == old(storage.entries)[CartKey := Serialized(cart)]
      ensures !hasLoaded ==> storage.entries == old(storage.entries)
      ensures Synced()
    {
      match call
      case Update(id, q, size) => UpdateQuantity(id, q, size);
      case Remove(id, size) => RemoveFromCart(id, size);
    }
  }

  /** A page reload: a fresh provider over the same storage hydrates exactly
      the cart the previous one had saved, and its save effect writes back
      what was already there, so storage is left as it was. */
  method Reload(previous: CartProvider) returns (next: CartProvider)
    requires previous.hasLoaded && previous.Synced()
    modifies previous.storage
    ensures fresh(next) && next.storage == previous.storage
    ensures next.hasLoaded && next.cart == previous.cart
    ensures previous.storage.entries == old(previous.storage.entries)
  {
    next := new CartProvider(previous.storage);
    var thrown := next.Mount();
    assert previous.storage.entries == old(previous.storage.entries)[CartKey := Serialized(previous.cart)];
  }
}
