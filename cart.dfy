/** The cart store of src/services/cart.service.ts: a Redis hash per
    (store, session) cart key, whose fields are item keys and whose values are
    the JSON-encoded cart entries. Redis is modelled as a map of maps, with a
    second map holding the time-to-live last set on each cart key. */
module Cart {
  import opened Wrappers
  import opened Text

  /** One cart line as stored in the hash. */
  datatype CartEntry = CartEntry(productId: string, variantId: Option<string>, quantity: int)

  datatype CartError = ItemNotInCart

  /** The Redis hash of one cart: item key to entry. */
  type Hash = map<string, CartEntry>

  /** Seven days, in seconds: the expiry set on every add. */
  const CartTtlSeconds: nat := 60 * 60 * 24 * 7

  /** JavaScript truthiness of an optional variant id: `undefined` and the
      empty string both count as "no variant". */
  predicate HasVariant(variantId: Option<string>) {
    variantId.Some? && variantId.value != ""
  }

  /** The Redis key of the cart of one session in one store. */
  function CartKey(storeId: string, sessionId: string): string {
    "cart:" + storeId + ":" + sessionId
  }

  /** Carts of different stores or different sessions never share a Redis key,
      provided store ids carry no colon (they are UUIDs). */
  lemma CartKeyInjective(storeId: string, sessionId: string, storeId': string, sessionId': string)
    requires NoColon(storeId) && NoColon(storeId')
    requires CartKey(storeId, sessionId) == CartKey(storeId', sessionId')
    ensures storeId == storeId' && sessionId == sessionId'
  {
    var k, k' := CartKey(storeId, sessionId), CartKey(storeId', sessionId');
    assert k[5..] == storeId + ":" + sessionId;
    assert k'[5..] == storeId' + ":" + sessionId';
    SplitAtColon(storeId, sessionId, storeId', sessionId');
  }

  /** The hash field of an entry: `productId:variantId`, or `productId` alone. */
  function ItemKey(productId: string, variantId: Option<string>): string {
    if HasVariant(variantId) then productId + ":" + variantId.value else productId
  }

  function EntryKey(e: CartEntry): string {
    ItemKey(e.productId, e.variantId)
  }

  /** Distinct product/variant selections get distinct item keys, provided
      product ids carry no colon. */
  lemma ItemKeyInjective(productId: string, variantId: Option<string>, productId': string, variantId': string)
    requires NoColon(productId) && NoColon(productId')
    requires ItemKey(productId, variantId) == ItemKey(productId', Some(variantId'))
    requires variantId' != ""
    ensures productId == productId' && HasVariant(variantId) && variantId.value == variantId'
  {
    var k' := productId' + ":" + variantId';
    assert k'[|productId'|] == ':';
    if HasVariant(variantId) {
      SplitAtColon(productId, variantId.value, productId', variantId');
    }
  }

  /** The hash after `addToCart`: an absent key gets the item itself; a present
      key keeps its stored entry with the quantities summed. */
  function Added(h: Hash, item: CartEntry): (h': Hash)
    ensures h'.Keys == h.Keys + {EntryKey(item)}
    ensures forall k :: k in h && k != EntryKey(item) ==> h'[k] == h[k]
    ensures EntryKey(item) !in h ==> h'[EntryKey(item)] == item
    ensures EntryKey(item) in h ==>
      h'[EntryKey(item)] == h[EntryKey(item)].(quantity := h[EntryKey(item)].quantity + item.quantity)
  {
    var k := EntryKey(item);
    var current := if k in h then h[k] else item.(quantity := 0);
    h[k := current.(quantity := current.quantity + item.quantity)]
  }

  /** Two adds of the same item key leave a single entry carrying the summed
      quantity, as one add of the sum would. */
  lemma AddMerges(h: Hash, a: CartEntry, b: CartEntry)
    requires EntryKey(a) == EntryKey(b)
    ensures Added(Added(h, a), b) == Added(h, a.(quantity := a.quantity + b.quantity))
  {
    var k := EntryKey(a);
    assert EntryKey(a.(quantity := a.quantity + b.quantity)) == k;
  }

  /** Adding 2 and then 3 of a new item yields one entry of 5. */
  lemma AddTwoThenThree(h: Hash, item: CartEntry)
    requires EntryKey(item) !in h
    ensures var h' := Added(Added(h, item.(quantity := 2)), item.(quantity := 3));
      h'.Keys == h.Keys + {EntryKey(item)} && h'[EntryKey(item)] == item.(quantity := 5)
  {
    AddMerges(h, item.(quantity := 2), item.(quantity := 3));
  }

  /** The hash after `updateCartItem`: an absent key is an error; a quantity of
      zero or less deletes the entry; otherwise the quantity is overwritten. */
  function Updated(h: Hash, itemKey: string, quantity: int): (r: Result<Hash, CartError>)
    ensures r.Err? <==> itemKey !in h
    ensures r.Ok? ==> r.value.Keys == if quantity <= 0 then h.Keys - {itemKey} else h.Keys
    ensures r.Ok? && quantity > 0 ==> r.value[itemKey] == h[itemKey].(quantity := quantity)
    ensures r.Ok? ==> forall k :: k in h && k != itemKey ==> r.value[k] == h[k]
  {
    if itemKey !in h then Err(ItemNotInCart)
    else if quantity <= 0 then Ok(h - {itemKey})
    else Ok(h[itemKey := h[itemKey].(quantity := quantity)])
  }

  /** The hash after `removeFromCart`: the key is gone, whether or not it was there. */
  function Removed(h: Hash, itemKey: string): (h': Hash)
    ensures itemKey !in h'
    ensures h'.Keys == h.Keys - {itemKey}
    ensures forall k :: k in h' ==> h'[k] == h[k]
  {
    h - {itemKey}
  }

  /** Removing is idempotent, and updating a present key to quantity zero
      removes it. */
  lemma RemoveIdempotent(h: Hash, itemKey: string, quantity: int)
    ensures Removed(Removed(h, itemKey), itemKey) == Removed(h, itemKey)
    ensures itemKey in h && quantity <= 0 ==> Updated(h, itemKey, quantity) == Ok(Removed(h, itemKey))
  {
  }

  /** Redis drops a hash whose last field is deleted: storing an empty hash
      removes the key. */
  function Stored(carts: map<string, Hash>, key: string, h: Hash): (r: map<string, Hash>)
    ensures forall k :: k != key ==> (k in r <==> k in carts)
    ensures key in r <==> h != map[]
    ensures h != map[] ==> r[key] == h
    ensures forall k :: k in r && k != key ==> r[k] == carts[k]
  {
    if h == map[] then carts - {key} else carts[key := h]
  }

  /** `items` lists the entries of `h`, one per item key, in the order `keys`
      that Redis happened to return them. */
  predicate Enumerates(keys: seq<string>, items: seq<CartEntry>, h: Hash) {
    && |keys| == |items|
    && (forall i :: 0 <= i < |keys| ==> keys[i] in h && items[i] == h[keys[i]])
    && (forall i, j :: 0 <= i < j < |keys| ==> keys[i] != keys[j])
    && (forall k :: k in h ==> k in keys)
  }

  lemma EnumeratesEmpty(keys: seq<string>, items: seq<CartEntry>, h: Hash)
    requires Enumerates(keys, items, h)
    ensures items == [] <==> h == map[]
  {
    if h != map[] {
      var k :| k in h;
      assert k in keys;
    }
    if items != [] {
      assert keys[0] in h;
    }
  }

  class CartStore {
    /** Redis: cart key to its hash. */
    var carts: map<string, Hash>
    /** The time-to-live, in seconds, last set on each cart key. */
    var ttl: map<string, nat>

    /** No empty hash is stored, and every stored cart has an expiry. */
    ghost predicate Valid()
      reads this
    {
      && carts.Keys == ttl.Keys
      && (forall k :: k in carts ==> carts[k] != map[])
    }

    /** The hash stored under `key`; an absent key reads as an empty hash. */
    function Cart(key: string): (h: Hash)
      reads this
      ensures key !in carts ==> h == map[]
    {
      if key in carts then carts[key] else map[]
    }

    constructor ()
      ensures Valid() && carts == map[] && ttl == map[]
    {
      carts, ttl := map[], map[];
    }

    /** `hGetAll` then `Object.values`: every entry once, in Redis' order. */
    method GetCart(storeId: string, sessionId: string) returns (items: seq<CartEntry>, ghost keys: seq<string>)
      ensures Enumerates(keys, items, Cart(CartKey(storeId, sessionId)))
    {
      var h := Cart(CartKey(storeId, sessionId));
      var rest := h.Keys;
      items, keys := [], [];
      while rest != {}
        invariant rest <= h.Keys
        invariant |keys| == |items|
        invariant forall i :: 0 <= i < |keys| ==> keys[i] in h && items[i] == h[keys[i]]
        invariant forall i, j :: 0 <= i < j < |keys| ==> keys[i] != keys[j]
        invariant forall k :: k in h ==> (k in rest <==> k !in keys)
        decreases rest
      {
        var k :| k in rest;
        items, keys := items + [h[k]], keys + [k];
        rest := rest - {k};
      }
    }

    method AddToCart(storeId: string, sessionId: string, item: CartEntry) returns (items: seq<CartEntry>, ghost keys: seq<string>)
      requires Valid()
      modifies this
      ensures Valid()
      ensures carts == old(carts)[CartKey(storeId, sessionId) := Added(old(Cart(CartKey(storeId, sessionId))), item)]
      ensures ttl == old(ttl)[CartKey(storeId, sessionId) := CartTtlSeconds]
      ensures Enumerates(keys, items, Cart(CartKey(storeId, sessionId)))
    {
      var key := CartKey(storeId, sessionId);
      carts := carts[key := Added(Cart(key), item)];
      ttl := ttl[key := CartTtlSeconds];
      items, keys := GetCart(storeId, sessionId);
    }

    method UpdateCartItem(storeId: string, sessionId: string, itemKey: string, quantity: int)
      returns (r: Result<seq<CartEntry>, CartError>, ghost keys: seq<string>)
      requires Valid()
      modifies this
      ensures Valid()
      ensures var key := CartKey(storeId, sessionId);
        match Updated(old(Cart(key)), itemKey, quantity)
        case Err(e) => r == Err(e) && carts == old(carts) && ttl == old(ttl)
        case Ok(h) =>
          && carts == Stored(old(carts), key, h)
          && ttl == (if h == map[] then old(ttl) - {key} else old(ttl))
          && r.Ok? && Enumerates(keys, r.value, h)
    {
      var key := CartKey(storeId, sessionId);
      keys := [];
      match Updated(Cart(key), itemKey, quantity)
      case Err(e) =>
        r := Err(e);
      case Ok(h) =>
        carts := Stored(carts, key, h);
        if h == map[] {
          ttl := ttl - {key};
        }
        var items;
        items, keys := GetCart(storeId, sessionId);
        r := Ok(items);
    }

    method RemoveFromCart(storeId: string, sessionId: string, itemKey: string)
      returns (items: seq<CartEntry>, ghost keys: seq<string>)
      requires Valid()
      modifies this
      ensures Valid()
      ensures var key := CartKey(storeId, sessionId);
        var h := Removed(old(Cart(key)), itemKey);
        && carts == Stored(old(carts), key, h)
        && ttl == (if h == map[] then old(ttl) - {key} else old(ttl))
        && Enumerates(keys, items, h)
    {
      var key := CartKey(storeId, sessionId);
      var h := Removed(Cart(key), itemKey);
      carts := Stored(carts, key, h);
      if h == map[] {
        ttl := ttl - {key};
      }
      items, keys := GetCart(storeId, sessionId);
    }

    method ClearCart(storeId: string, sessionId: string)
      requires Valid()
      modifies this
      ensures Valid()
      ensures carts == old(carts) - {CartKey(storeId, sessionId)}
      ensures ttl == old(ttl) - {CartKey(storeId, sessionId)}
    {
      var key := CartKey(storeId, sessionId);
      carts := carts - {key};
      ttl := ttl - {key};
    }
  }
}
