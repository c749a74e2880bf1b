/**
 * The shop section: the product catalog, the case-insensitive search, the
 * split of the hits into the four category sections, and the flags that say
 * which dialog is open. `toLowerCase` is a parameter applied character by
 * character.
 */
module ShopSection {
  import opened Optional

  datatype Category = Nitro | Decoration | Boost | Server

  /** A catalog entry, without its icon. */
  datatype Product = Product(
    id: string,
    title: string,
    description: string,
    price: string,
    originalPrice: Option<string>,
    badge: Option<string>,
    category: Category)

  const Products: seq<Product> := [
    Product("nitro-1month", "Nitro Discord 1 mois",
      "Profitez d'un mois complet de Discord Nitro avec toutes les fonctionnalités premium.",
      "GRATUIT", None, Some("Offre Exclusive"), Nitro),
    Product("nitro-1year", "Nitro Discord 1 an",
      "Une année complète de Discord Nitro à un prix imbattable.",
      "3€", None, Some("Meilleure Offre"), Nitro),
    Product("nitro-5months", "Nitro Discord 5 mois",
      "5 mois de Discord Nitro avec accès complet à toutes les fonctionnalités premium.",
      "7€", None, None, Nitro),
    Product("decorations", "Décorations Discord",
      "Personnalisez votre profil Discord avec des décorations exclusives et uniques.",
      "2€", Some("10€"), Some("Promo -80%"), Decoration),
    Product("decorations-5", "Décorations Discord (5)",
      "Pack de 5 décorations Discord exclusives pour personnaliser votre profil.",
      "10€", None, None, Decoration),
    Product("boost-10", "Discord Boost (10)",
      "Boostez votre serveur Discord avec 10 boosts pour débloquer les fonctionnalités premium.",
      "3€", None, None, Boost),
    Product("nitro-lifetime", "Nitro Discord à Vie",
      "Accès illimité à Discord Nitro pour toujours avec toutes les fonctionnalités premium.",
      "50€", None, Some("Offre Premium"), Nitro),
    Product("boost-20", "Discord Boost (20)",
      "Pack de 20 boosts pour un serveur Discord ultra-boosté avec tous les avantages.",
      "6€", None, None, Boost),
    Product("decorations-50", "Décorations Discord (50)",
      "Mega pack de 50 décorations Discord exclusives pour personnaliser votre profil.",
      "35€", None, None, Decoration),
    Product("decorations-70", "Décorations Discord (70)",
      "Collection complète de 70 décorations Discord pour une personnalisation totale.",
      "45€", None, None, Decoration),
    Product("boost-300", "Discord Boost (300)",
      "Pack massif de 300 boosts pour un serveur Discord ultra-premium avec tous les avantages.",
      "100€", None, Some("Mega Pack"), Boost),
    Product("server-custom", "Serveur Personnalisé",
      "Créez votre propre serveur Discord avec options personnalisées.",
      "Dés 5€", None, Some("Personnalisable"), Server)
  ]

  /** The catalog ids are pairwise distinct, as their use as list keys requires. */
  lemma CatalogIdsDistinct()
    ensures forall i, j :: 0 <= i < j < |Products| ==> Products[i].id != Products[j].id
  {
  }

  // ------------------------------------------------------------ sequences

  /** Array.prototype.filter: the elements `keep` accepts, in their order. */
  function Filter<T(==,!new)>(s: seq<T>, keep: T -> bool): (r: seq<T>)
    ensures |r| <= |s|
    ensures forall x :: x in r <==> x in s && keep(x)
  {
    if s == [] then [] else (if keep(s[0]) then [s[0]] else []) + Filter(s[1..], keep)
  }

  /** `a` can be obtained from `b` by deleting elements. */
  predicate IsSubsequence<T(==)>(a: seq<T>, b: seq<T>)
    decreases |b|
  {
    if a == [] then true
    else if b == [] then false
    else (a[0] == b[0] && IsSubsequence(a[1..], b[1..])) || IsSubsequence(a, b[1..])
  }

  /** What filter keeps is an order-preserving subsequence of what it was given. */
  lemma {:induction false} FilterIsSubsequence<T(!new)>(s: seq<T>, keep: T -> bool)
    ensures IsSubsequence(Filter(s, keep), s)
    decreases |s|
  {
    if s != [] {
      FilterIsSubsequence(s[1..], keep);
      var rest := Filter(s[1..], keep);
      if keep(s[0]) {
        assert Filter(s, keep) == [s[0]] + rest;
        assert ([s[0]] + rest)[1..] == rest;
      } else {
        assert Filter(s, keep) == rest;
      }
    }
  }

  /** Filtering a concatenation filters each part. */
  lemma {:induction false} FilterAppend<T(!new)>(a: seq<T>, b: seq<T>, keep: T -> bool)
    ensures Filter(a + b, keep) == Filter(a, keep) + Filter(b, keep)
    decreases |a|
  {
    if a == [] {
      assert a + b == b;
    } else {
      assert (a + b)[1..] == a[1..] + b;
      FilterAppend(a[1..], b, keep);
    }
  }

  /** A filter that accepts every element returns its input. */
  lemma {:induction false} FilterKeepsAll<T(!new)>(s: seq<T>, keep: T -> bool)
    requires forall i :: 0 <= i < |s| ==> keep(s[i])
    ensures Filter(s, keep) == s
    decreases |s|
  {
    if s != [] {
      FilterKeepsAll(s[1..], keep);
      assert [s[0]] + s[1..] == s;
    }
  }

  // --------------------------------------------------------------- search

  function Lower(s: string, lower: char -> char): (r: string)
    ensures |r| == |s|
    ensures forall i :: 0 <= i < |s| ==> r[i] == lower(s[i])
  {
    seq(|s|, i requires 0 <= i < |s| => lower(s[i]))
  }

  /** String.prototype.includes. */
  function Includes(hay: string, needle: string): bool
    decreases |hay|
  {
    if needle <= hay then true
    else if hay == [] then false
    else Includes(hay[1..], needle)
  }

  /** `needle` occurs in `hay` starting at index `k`. */
  predicate OccursAt(hay: string, needle: string, k: int) {
    0 <= k <= |hay| - |needle| && hay[k..k + |needle|] == needle
  }

  lemma {:induction false} IncludesFindsOccurrence(hay: string, needle: string)
    requires Includes(hay, needle)
    ensures exists k :: OccursAt(hay, needle, k)
    decreases |hay|
  {
    if needle <= hay {
      assert OccursAt(hay, needle, 0);
    } else {
      IncludesFindsOccurrence(hay[1..], needle);
      var k :| OccursAt(hay[1..], needle, k);
      assert hay[1..][k..k + |needle|] == hay[k + 1..k + 1 + |needle|];
      assert OccursAt(hay, needle, k + 1);
    }
  }

  lemma {:induction false} OccurrenceIsIncluded(hay: string, needle: string, k: int)
    requires OccursAt(hay, needle, k)
    ensures Includes(hay, needle)
    decreases k
  {
    if k == 0 {
      assert needle <= hay;
    } else if !(needle <= hay) {
      assert hay[1..][k - 1..k - 1 + |needle|] == hay[k..k + |needle|];
      OccurrenceIsIncluded(hay[1..], needle, k - 1);
    }
  }

  /** `hay.includes(needle)` exactly when `needle` occurs at some index of `hay`. */
  lemma IncludesOccurs(hay: string, needle: string)
    ensures Includes(hay, needle) <==> exists k :: OccursAt(hay, needle, k)
  {
    if Includes(hay, needle) {
      IncludesFindsOccurrence(hay, needle);
    }
    if exists k :: OccursAt(hay, needle, k) {
      var k :| OccursAt(hay, needle, k);
      OccurrenceIsIncluded(hay, needle, k);
    }
  }

  /** The search predicate: the lowered term occurs in the lowered title or description. */
  predicate Matches(p: Product, term: string, lower: char -> char) {
    Includes(Lower(p.title, lower), Lower(term, lower)) ||
    Includes(Lower(p.description, lower), Lower(term, lower))
  }

  /** `filteredProducts`. */
  function Search(products: seq<Product>, term: string, lower: char -> char): seq<Product> {
    Filter(products, (p: Product) => Matches(p, term, lower))
  }

  /**
   * The hits are an order-preserving subsequence of the catalog; a product is
   * a hit exactly when the lowered term occurs in its lowered title or description.
   */
  lemma SearchSpec(products: seq<Product>, term: string, lower: char -> char)
    ensures IsSubsequence(Search(products, term, lower), products)
    ensures forall p :: p in Search(products, term, lower) <==> p in products && Matches(p, term, lower)
    ensures forall p :: Matches(p, term, lower) <==>
      (exists k :: OccursAt(Lower(p.title, lower), Lower(term, lower), k)) ||
      (exists k :: OccursAt(Lower(p.description, lower), Lower(term, lower), k))
  {
    FilterIsSubsequence(products, (p: Product) => Matches(p, term, lower));
    forall p: Product ensures Matches(p, term, lower) <==>
      (exists k :: OccursAt(Lower(p.title, lower), Lower(term, lower), k)) ||
      (exists k :: OccursAt(Lower(p.description, lower), Lower(term, lower), k))
    {
      IncludesOccurs(Lower(p.title, lower), Lower(term, lower));
      IncludesOccurs(Lower(p.description, lower), Lower(term, lower));
    }
  }

  /** Searching splits over concatenation: each product is kept or dropped on its own. */
  lemma SearchAppend(a: seq<Product>, b: seq<Product>, term: string, lower: char -> char)
    ensures Search(a + b, term, lower) == Search(a, term, lower) + Search(b, term, lower)
  {
    FilterAppend(a, b, (p: Product) => Matches(p, term, lower));
  }

  /** The empty search term keeps every product. */
  lemma EmptySearchKeepsAll(products: seq<Product>, lower: char -> char)
    ensures Search(products, "", lower) == products
  {
    forall i | 0 <= i < |products| ensures Matches(products[i], "", lower) {
      assert Lower("", lower) == "";
      assert Lower("", lower) <= Lower(products[i].title, lower);
    }
    FilterKeepsAll(products, (p: Product) => Matches(p, "", lower));
  }

  // ------------------------------------------------------------- grouping

  /** One value of `groupedByCategory`. */
  function Group(hits: seq<Product>, c: Category): seq<Product> {
    Filter(hits, (p: Product) => p.category == c)
  }

  /**
   * Each group holds exactly the hits of its category, in their order, and
   * the four groups together are as many as the hits.
   */
  lemma {:induction false} GroupsPartition(hits: seq<Product>)
    ensures forall c, p :: p in Group(hits, c) <==> p in hits && p.category == c
    ensures forall c :: IsSubsequence(Group(hits, c), hits)
    ensures |Group(hits, Nitro)| + |Group(hits, Decoration)| + |Group(hits, Server)| + |Group(hits, Boost)| == |hits|
    decreases |hits|
  {
    forall c ensures IsSubsequence(Group(hits, c), hits) {
      FilterIsSubsequence(hits, (p: Product) => p.category == c);
    }
    if hits != [] {
      GroupsPartition(hits[1..]);
    }
  }

  /** A category section renders nothing for an empty group. */
  predicate SectionShown(hits: seq<Product>, c: Category) {
    |Group(hits, c)| != 0
  }

  /** The "no offers" message: no hits at all. */
  predicate NoOffersShown(hits: seq<Product>) {
    |hits| == 0
  }

  /** The "no offers" message shows exactly when no category section does. */
  lemma NoOffersIffNoSection(hits: seq<Product>)
    ensures NoOffersShown(hits) <==>
      !SectionShown(hits, Nitro) && !SectionShown(hits, Decoration) &&
      !SectionShown(hits, Server) && !SectionShown(hits, Boost)
  {
    GroupsPartition(hits);
  }

  // ---------------------------------------------------------------- flags

  /** The section's state cells. */
  class Shop {
    const lower: char -> char
    /** The `products` array the component filters. */
    const catalog: seq<Product>
    var searchTerm: string
    var selectedProduct: Option<Product>
    var showPaymentModal: bool
    var showServerConfigModal: bool

    /** The payment dialog is open exactly while a product is selected. */
    ghost predicate Valid()
      reads this
    {
      showPaymentModal <==> selectedProduct.Some?
    }

    /** What the card buttons keep: no server product is ever selected. */
    ghost predicate NoServerSelected()
      reads this
    {
      selectedProduct.Some? ==> selectedProduct.value.category != Server
    }

    constructor (lower: char -> char)
      ensures Valid() && NoServerSelected()
      ensures this.lower == lower && catalog == Products
      ensures searchTerm == "" && selectedProduct == None
      ensures !showPaymentModal && !showServerConfigModal
    {
      this.lower := lower;
      catalog := Products;
      searchTerm := "";
      selectedProduct := None;
      showPaymentModal := false;
      showServerConfigModal := false;
    }

    /** `filteredProducts` for the current search term. */
    function Hits(): seq<Product>
      reads this
    {
      Search(catalog, searchTerm, lower)
    }

    /** The payment dialog is mounted for a selected non-server product and open while its flag is set. */
    predicate PaymentModalOpen()
      reads this
    {
      selectedProduct.Some? && selectedProduct.value.category != Server && showPaymentModal
    }

    /** The search box's `onChange`: the shown products become the hits of the new term. */
    method SetSearchTerm(term: string)
      modifies this
      ensures searchTerm == term
      ensures Hits() == Search(catalog, term, lower)
      ensures forall p :: p in Hits() <==> p in catalog && Matches(p, term, lower)
      ensures selectedProduct == old(selectedProduct) && showPaymentModal == old(showPaymentModal)
      ensures showServerConfigModal == old(showServerConfigModal)
    {
      searchTerm := term;
      SearchSpec(catalog, term, lower);
    }

    /** `handlePayClick`: selects the product and raises the payment flag; a server product stays unshown. */
    method HandlePayClick(p: Product)
      requires Valid()
      modifies this
      ensures Valid()
      ensures selectedProduct == Some(p) && showPaymentModal
      ensures PaymentModalOpen() <==> p.category != Server
      ensures searchTerm == old(searchTerm) && showServerConfigModal == old(showServerConfigModal)
    {
      selectedProduct := Some(p);
      showPaymentModal := true;
    }

    /** A card's button: Configurer on the server card, Payer on every other. */
    method CardButton(p: Product)
      requires Valid() && NoServerSelected()
      modifies this
      ensures Valid() && NoServerSelected()
      ensures p.category == Server ==> (showServerConfigModal &&
        selectedProduct == old(selectedProduct) && showPaymentModal == old(showPaymentModal))
      ensures p.category != Server ==> (selectedProduct == Some(p) && PaymentModalOpen() &&
        showServerConfigModal == old(showServerConfigModal))
      ensures searchTerm == old(searchTerm)
    {
      if p.category == Server {
        showServerConfigModal := true;
      } else {
        HandlePayClick(p);
      }
    }

    /** The payment dialog's `onClose`: lower the flag and clear the selection. */
    method ClosePaymentModal()
      modifies this
      ensures Valid() && NoServerSelected()
      ensures !showPaymentModal && selectedProduct == None && !PaymentModalOpen()
      ensures searchTerm == old(searchTerm) && showServerConfigModal == old(showServerConfigModal)
    {
      showPaymentModal := false;
      selectedProduct := None;
    }

    /** The server dialog's `onClose`. */
    method CloseServerConfigModal()
      modifies this
      ensures !showServerConfigModal
      ensures searchTerm == old(searchTerm) && selectedProduct == old(selectedProduct)
      ensures showPaymentModal == old(showPaymentModal)
    {
      showServerConfigModal := false;
    }
  }
}
