/**
 * Catalog entries: the product record the server sends, the record the home
 * screen keeps after decorating it, and the synthetic key that decoration
 * attaches (the product's id rendered as text, immediately followed by its
 * position in the fetch result written in decimal).
 */
module Products {

  import opened Wrappers

  /** A product as the catalog server sends it. The id is kept as the text a
      JavaScript template literal renders for it. */
  datatype RawProduct = RawProduct(
    id: string,
    title: string,
    priceMin: real,
    compareAtPriceMin: Option<real>,
    currency: string,
    images: seq<string>,
    offerMessage: Option<string>)

  /** A decorated catalog entry: every server field, the synthetic key and the
      cart-membership flag. */
  datatype Product = Product(raw: RawProduct, uniquieId: string, isInCart: bool)

  /** Two entries describe the same catalog item when they agree on everything
      but the cart flag. */
  predicate SameItem(a: Product, b: Product)
  {
    a.raw == b.raw && a.uniquieId == b.uniquieId
  }

  // ---------------------------------------------------------------------------
  // Decimal rendering of a position, as `${i}` produces it for an array index.
  // ---------------------------------------------------------------------------

  predicate IsDigit(c: char)
  {
    '0' <= c <= '9'
  }

  predicate AllDigits(s: string)
  {
    forall k :: 0 <= k < |s| ==> IsDigit(s[k])
  }

  function DigitChar(d: nat): (c: char)
    requires d < 10
    ensures IsDigit(c) && c as int - '0' as int == d
  {
    (48 + d) as char
  }

  function DigitValue(c: char): (d: nat)
    requires IsDigit(c)
    ensures d < 10
  {
    c as int - '0' as int
  }

  /** The shortest decimal representation of n: at least one digit, and no
      leading zero unless n itself is zero. */
  function DecimalString(n: nat): (s: string)
    ensures 1 <= |s| && AllDigits(s)
    ensures s[0] == '0' ==> n == 0 && |s| == 1
    decreases n
  {
    if n < 10 then [DigitChar(n)] else DecimalString(n / 10) + [DigitChar(n % 10)]
  }

  /** Reads a string of decimal digits back into the number it denotes. */
  function ParseDecimal(s: string): nat
    requires AllDigits(s)
  {
    if s == [] then 0 else ParseDecimal(s[..|s| - 1]) * 10 + DigitValue(s[|s| - 1])
  }

  /** Decimal rendering loses nothing: parsing it gives the number back. */
  lemma {:induction false} ParseDecimalString(n: nat)
    ensures ParseDecimal(DecimalString(n)) == n
  {
    if n >= 10 {
      var s := DecimalString(n);
      assert s[..|s| - 1] == DecimalString(n / 10);
      ParseDecimalString(n / 10);
    }
  }

  /** Distinct positions are rendered differently. */
  lemma DecimalStringInjective(m: nat, n: nat)
    requires DecimalString(m) == DecimalString(n)
    ensures m == n
  {
    ParseDecimalString(m);
    ParseDecimalString(n);
  }

  // ---------------------------------------------------------------------------
  // The synthetic key `${val.id}${i}`.
  // ---------------------------------------------------------------------------

  /** The key starts with the id and ends with digits that read back as the
      index. */
  function Key(id: string, index: nat): (k: string)
    ensures |id| < |k| && k[..|id|] == id
    ensures AllDigits(k[|id|..]) && ParseDecimal(k[|id|..]) == index
    ensures k[|id|] == '0' ==> index == 0 && |k| == |id| + 1
  {
    ParseDecimalString(index);
    var k := id + DecimalString(index);
    assert k[|id|..] == DecimalString(index);
    assert k[|id|] == DecimalString(index)[0];
    k
  }

  /** The key is not unique in general: there is no separator between the id
      and the index, so id "1" at position 12 and id "11" at position 2 both
      get the key "112". */
  lemma KeyCollision()
    ensures "1" != "11" && Key("1", 12) == "112" && Key("11", 2) == "112"
  {
  }

  /** Under the extra assumption that the two ids have the same length, equal
      keys mean equal ids and equal positions. */
  lemma KeyInjectiveForEqualWidth(id1: string, i: nat, id2: string, j: nat)
    requires |id1| == |id2|
    requires Key(id1, i) == Key(id2, j)
    ensures id1 == id2 && i == j
  {
    var k := Key(id1, i);
    assert id1 == k[..|id1|];
    assert id2 == Key(id2, j)[..|id2|];
    assert DecimalString(i) == k[|id1|..];
    assert DecimalString(j) == Key(id2, j)[|id2|..];
    DecimalStringInjective(i, j);
  }

  // ---------------------------------------------------------------------------
  // Decoration of a fetch result against the cart.
  // ---------------------------------------------------------------------------

  /** `cart.some(e => e.uniquieId == key)`. */
  function InCart(cart: seq<Product>, key: string): (b: bool)
    ensures b <==> exists j :: 0 <= j < |cart| && cart[j].uniquieId == key
  {
    if cart == [] then false
    else if cart[0].uniquieId == key then true
    else
      var b := InCart(cart[1..], key);
      assert b ==> exists j :: 0 <= j < |cart| && cart[j].uniquieId == key by {
        if b {
          var j :| 0 <= j < |cart[1..]| && cart[1..][j].uniquieId == key;
          assert cart[j + 1].uniquieId == key;
        }
      }
      b
  }

  /** Decorate one fetched product at position i. */
  function DecorateOne(raw: RawProduct, i: nat, cart: seq<Product>): Product
  {
    var key := Key(raw.id, i);
    Product(raw, key, InCart(cart, key))
  }

  /** The map step of a successful fetch: every product keeps its server
      fields, gets the key for its position, and is flagged exactly when some
      cart entry carries that key. */
  function Decorate(raw: seq<RawProduct>, cart: seq<Product>): (r: seq<Product>)
    ensures |r| == |raw|
    ensures forall i :: 0 <= i < |raw| ==> r[i].raw == raw[i] && r[i].uniquieId == Key(raw[i].id, i)
    ensures forall i :: 0 <= i < |raw| ==>
              (r[i].isInCart <==> exists j :: 0 <= j < |cart| && cart[j].uniquieId == r[i].uniquieId)
  {
    seq(|raw|, i requires 0 <= i < |raw| => DecorateOne(raw[i], i, cart))
  }

  /** Keys within one fetch are unique when every id has the same length (in
      particular when the server sends the same id several times). */
  lemma DecoratedKeysUnique(raw: seq<RawProduct>, cart: seq<Product>, i: nat, j: nat)
    requires forall a, b :: 0 <= a < |raw| && 0 <= b < |raw| ==> |raw[a].id| == |raw[b].id|
    requires i < |raw| && j < |raw| && i != j
    ensures Decorate(raw, cart)[i].uniquieId != Decorate(raw, cart)[j].uniquieId
  {
    if Key(raw[i].id, i) == Key(raw[j].id, j) {
      KeyInjectiveForEqualWidth(raw[i].id, i, raw[j].id, j);
    }
  }

  /** Without that assumption keys can repeat within one fetch. */
  lemma DecoratedKeysCanCollide(cart: seq<Product>)
    ensures var p1 := RawProduct("11", "", 0.0, None, "", [], None);
            var p := RawProduct("1", "", 0.0, None, "", [], None);
            var raw := [p, p, p1] + seq(10, k => p);
            |raw| == 13 && Decorate(raw, cart)[2].uniquieId == Decorate(raw, cart)[12].uniquieId
  {
    KeyCollision();
  }
}
