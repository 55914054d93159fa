/** The product record and the static catalog. */
module Products {

  datatype Option<T> = None | Some(value: T)

  /**
   * A catalog product, keeping the fields the selection logic uses: its key,
   * its generic image file name and its optional web fallback address.
   */
  datatype Product = Product(key: string, defaultImage: string, fallbackUrl: Option<string>)

  const FigaroChain := "figaro_chain"
  const RopeChain := "rope_chain"
  const CubanChain := "cuban_chain"
  const IcedChain := "iced_chain"
  const TennisBracelet := "tennis_bracelet"
  const DiamondStuds := "diamond_studs"
  const HerringboneChain := "herringbone_chain"
  const BoxChain := "box_chain"

  /** The catalog's keys in insertion order, the order `CATALOG.items()` visits them. */
  const CatalogOrder: seq<string> := [
    FigaroChain, RopeChain, CubanChain, IcedChain,
    TennisBracelet, DiamondStuds, HerringboneChain, BoxChain
  ]

  /** `CATALOG`, holding exactly the keys of the insertion order. */
  function Catalog(): (c: map<string, Product>)
    ensures forall k :: k in c <==> k in CatalogOrder
  {
    map[
      "figaro_chain" := Product("figaro_chain", "figaro_chain.jpg", None),
      "rope_chain" := Product("rope_chain", "rope_chain.jpg", None),
      "cuban_chain" := Product("cuban_chain", "cuban_chain.jpg", None),
      "iced_chain" := Product("iced_chain", "iced_chain.jpg", None),
      "tennis_bracelet" := Product("tennis_bracelet", "tennis_bracelet.jpg", None),
      "diamond_studs" := Product("diamond_studs", "diamond_studs.jpg", None),
      "herringbone_chain" := Product("herringbone_chain", "herringbone_chain.jpg", None),
      "box_chain" := Product("box_chain", "box_chain.jpg", None)
    ]
  }

  /** The catalog entry under `k` is filed under its own key, its default image is `<k>.jpg` and it has no web fallback. */
  predicate WellFormedEntry(c: map<string, Product>, k: string) {
    k in c && c[k] == Product(k, k + ".jpg", None)
  }

  /** Every catalog entry is well formed. */
  lemma CatalogEntries()
    ensures forall k | k in Catalog() :: WellFormedEntry(Catalog(), k)
  {
    var c := Catalog();
    assert FigaroChain + ".jpg" == "figaro_chain.jpg";
    assert RopeChain + ".jpg" == "rope_chain.jpg";
    assert CubanChain + ".jpg" == "cuban_chain.jpg";
    assert IcedChain + ".jpg" == "iced_chain.jpg";
    assert TennisBracelet + ".jpg" == "tennis_bracelet.jpg";
    assert DiamondStuds + ".jpg" == "diamond_studs.jpg";
    assert HerringboneChain + ".jpg" == "herringbone_chain.jpg";
    assert BoxChain + ".jpg" == "box_chain.jpg";
  }

  /** The insertion order lists each key once. */
  lemma CatalogOrderDistinct()
    ensures forall i, j | 0 <= i < j < |CatalogOrder| :: CatalogOrder[i] != CatalogOrder[j]
  {
  }
}
