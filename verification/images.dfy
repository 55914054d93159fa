/**
 * Choosing the product photo: the candidate file names, the first-local-hit
 * search of `load_best_image`, and the base-image checklist. Whether a file
 * exists, opens, or a web fetch succeeds is given as a predicate.
 */
module Images {
  import opened Slugs
  import opened Products

  /** Where a shown image came from: the second result of `load_image_cached`. */
  datatype Source = Local | Web | Placeholder

  predicate StartsWith(s: string, prefix: string) {
    |prefix| <= |s| && s[..|prefix|] == prefix
  }

  predicate IsJpg(name: string) {
    |name| >= 4 && name[|name| - 4..] == ".jpg"
  }

  /** A `.jpg` file name without its extension. */
  function Stem(name: string): string
    requires IsJpg(name)
  {
    name[..|name| - 4]
  }

  /**
   * `image_candidates`: four names from most to least specific, built from
   * the product key, the metal's slug, the style's slug and the occasion's
   * slug. The first three are `.jpg` names; each one's stem is the next one's
   * stem with one more `_`-separated part (the occasion, then the style), the
   * third's stem is the key and the metal slug, and the last name is the
   * product's default image.
   */
  function ImageCandidates(product: Product, metal: string, style: string, occasion: string): (c: seq<string>)
    ensures |c| == 4 && c[3] == product.defaultImage
    ensures forall i | 0 <= i < 3 :: IsJpg(c[i])
    ensures Stem(c[2]) == product.key + "_" + MetalSlug(metal)
    ensures Stem(c[1]) == Stem(c[2]) + "_" + Slug(style)
    ensures Stem(c[0]) == Stem(c[1]) + "_" + Slug(occasion)
  {
    NamesFrom(product.key, MetalSlug(metal), Slug(style), Slug(occasion), product.defaultImage)
  }

  /** The f-strings of `image_candidates`, given the key, the three slugs and the default image. */
  function NamesFrom(key: string, m: string, s: string, o: string, defaultImage: string): (c: seq<string>)
    ensures |c| == 4 && c[3] == defaultImage
    ensures forall i | 0 <= i < 3 :: IsJpg(c[i])
    ensures Stem(c[2]) == key + "_" + m
    ensures Stem(c[1]) == Stem(c[2]) + "_" + s
    ensures Stem(c[0]) == Stem(c[1]) + "_" + o
  {
    var metalStem := key + "_" + m;
    var styleStem := metalStem + "_" + s;
    var fullStem := styleStem + "_" + o;
    JpgName(fullStem);
    JpgName(styleStem);
    JpgName(metalStem);
    [fullStem + ".jpg", styleStem + ".jpg", metalStem + ".jpg", defaultImage]
  }

  /** The first three candidates all start with the key and the metal slug. */
  lemma CandidatePrefixes(product: Product, metal: string, style: string, occasion: string)
    ensures var c := ImageCandidates(product, metal, style, occasion);
      forall i | 0 <= i < 3 :: StartsWith(c[i], product.key + "_" + MetalSlug(metal))
  {
    NamesPrefixes(product.key, MetalSlug(metal), Slug(style), Slug(occasion), product.defaultImage);
  }

  lemma NamesPrefixes(key: string, m: string, s: string, o: string, defaultImage: string)
    ensures var c := NamesFrom(key, m, s, o, defaultImage);
      forall i | 0 <= i < 3 :: StartsWith(c[i], key + "_" + m)
  {
    var c := NamesFrom(key, m, s, o, defaultImage);
    var metalStem := key + "_" + m;
    Extend(metalStem, s);
    Extend(Stem(c[1]), o);
    PrefixTransitive(Stem(c[0]), Stem(c[1]), metalStem);
    assert StartsWith(metalStem, metalStem);
    forall i | 0 <= i < 3
      ensures StartsWith(c[i], metalStem)
    {
      JpgPrefix(c[i], metalStem);
    }
  }

  lemma Extend(stem: string, part: string)
    ensures StartsWith(stem + "_" + part, stem)
  {
    assert (stem + "_" + part)[..|stem|] == stem;
  }

  lemma PrefixTransitive(a: string, b: string, c: string)
    requires StartsWith(a, b) && StartsWith(b, c)
    ensures StartsWith(a, c)
  {
    assert a[..|c|] == a[..|b|][..|c|];
  }

  /** Appending `.jpg` to a stem gives a `.jpg` name with that stem. */
  lemma JpgName(stem: string)
    ensures IsJpg(stem + ".jpg") && Stem(stem + ".jpg") == stem
  {
    assert (stem + ".jpg")[|stem|..] == ".jpg";
    assert (stem + ".jpg")[..|stem|] == stem;
  }

  /** A `.jpg` name starts with whatever its stem starts with. */
  lemma JpgPrefix(name: string, prefix: string)
    requires IsJpg(name) && StartsWith(Stem(name), prefix)
    ensures StartsWith(name, prefix)
  {
    assert name[..|prefix|] == Stem(name)[..|prefix|];
  }

  /**
   * For a product whose default image is `<key>.jpg` (every catalog product),
   * the generic name continues the chain: the four stems strictly shrink, so
   * the four candidates are pairwise different.
   */
  lemma CandidatesNarrow(product: Product, metal: string, style: string, occasion: string)
    requires product.defaultImage == product.key + ".jpg"
    ensures var c := ImageCandidates(product, metal, style, occasion);
      IsJpg(c[3]) && Stem(c[3]) == product.key
      && Stem(c[2]) == Stem(c[3]) + "_" + MetalSlug(metal)
      && |c[0]| > |c[1]| > |c[2]| > |c[3]|
      && forall i, j | 0 <= i < j < 4 :: c[i] != c[j]
  {
    NamesNarrow(product.key, MetalSlug(metal), Slug(style), Slug(occasion));
  }

  lemma NamesNarrow(key: string, m: string, s: string, o: string)
    ensures var c := NamesFrom(key, m, s, o, key + ".jpg");
      IsJpg(c[3]) && Stem(c[3]) == key
      && Stem(c[2]) == Stem(c[3]) + "_" + m
      && |c[0]| > |c[1]| > |c[2]| > |c[3]|
      && forall i, j | 0 <= i < j < 4 :: c[i] != c[j]
  {
    JpgName(key);
  }

  /** The candidates of every catalog product narrow as above. */
  lemma CatalogCandidatesNarrow(key: string, metal: string, style: string, occasion: string)
    requires key in Catalog()
    ensures var c := ImageCandidates(Catalog()[key], metal, style, occasion);
      Stem(c[2]) == key + "_" + MetalSlug(metal) && c[3] == key + ".jpg"
      && forall i, j | 0 <= i < j < 4 :: c[i] != c[j]
  {
    CatalogEntries();
    assert WellFormedEntry(Catalog(), key);
    CandidatesNarrow(Catalog()[key], metal, style, occasion);
  }

  /**
   * The outcome of `load_image_cached` for one name: local when the file
   * exists and opens, otherwise the product's web fallback when it has a
   * non-empty one and the fetch succeeds, otherwise a generated placeholder.
   */
  function LoadImage(fname: string, fallbackUrl: Option<string>,
                     loadsLocally: string -> bool, fetches: string -> bool): (src: Source)
    ensures src == Local <==> loadsLocally(fname)
    ensures src == Web <==>
      !loadsLocally(fname) && fallbackUrl.Some? && fallbackUrl.value != "" && fetches(fallbackUrl.value)
  {
    if loadsLocally(fname) then Local
    else if fallbackUrl.Some? && fallbackUrl.value != "" && fetches(fallbackUrl.value) then Web
    else Placeholder
  }

  /** The position of the first name that loads locally, if any. */
  function FirstLocal(names: seq<string>, loadsLocally: string -> bool): (r: Option<nat>)
    ensures r.Some? ==> r.value < |names| && loadsLocally(names[r.value])
    ensures r.Some? ==> forall j | 0 <= j < r.value :: !loadsLocally(names[j])
    ensures r.None? <==> forall j | 0 <= j < |names| :: !loadsLocally(names[j])
  {
    if names == [] then None
    else if loadsLocally(names[0]) then Some(0)
    else match FirstLocal(names[1..], loadsLocally)
      case None => None
      case Some(i) => Some(i + 1)
  }

  /**
   * The search loop of `load_best_image`: tries the names in order and
   * reports the first one that loads locally; when none does, it reloads the
   * first name, which then comes from the web fallback or is a placeholder,
   * and reports that name.
   */
  method SearchCandidates(candidates: seq<string>, fallbackUrl: Option<string>,
                          loadsLocally: string -> bool, fetches: string -> bool)
    returns (src: Source, chosen: string)
    requires |candidates| > 0
    ensures match FirstLocal(candidates, loadsLocally)
      case Some(k) => src == Local && chosen == candidates[k]
      case None => src != Local && chosen == candidates[0]
                   && src == LoadImage(candidates[0], fallbackUrl, loadsLocally, fetches)
  {
    var i := 0;
    while i < |candidates|
      invariant 0 <= i <= |candidates|
      invariant forall j | 0 <= j < i :: !loadsLocally(candidates[j])
    {
      var fname := candidates[i];
      var s := LoadImage(fname, fallbackUrl, loadsLocally, fetches);
      if s == Local {
        return s, fname;
      }
      i := i + 1;
    }
    src := LoadImage(candidates[0], fallbackUrl, loadsLocally, fetches);
    chosen := candidates[0];
  }

  /**
   * `load_best_image`: the first of the product's four candidates that loads
   * locally, or else the first candidate with whatever the fallback gives.
   */
  method LoadBestImage(product: Product, metal: string, style: string, occasion: string,
                       loadsLocally: string -> bool, fetches: string -> bool)
    returns (src: Source, chosen: string)
    ensures var c := ImageCandidates(product, metal, style, occasion);
      match FirstLocal(c, loadsLocally)
      case Some(k) => src == Local && chosen == c[k]
      case None => src != Local && chosen == c[0]
                   && src == LoadImage(c[0], product.fallbackUrl, loadsLocally, fetches)
  {
    var candidates := ImageCandidates(product, metal, style, occasion);
    src, chosen := SearchCandidates(candidates, product.fallbackUrl, loadsLocally, fetches);
  }

  /** A catalog product has no web fallback, so a search without a local hit shows a placeholder. */
  lemma CatalogMissShowsPlaceholder(key: string, fname: string, loadsLocally: string -> bool, fetches: string -> bool)
    requires key in Catalog() && !loadsLocally(fname)
    ensures LoadImage(fname, Catalog()[key].fallbackUrl, loadsLocally, fetches) == Placeholder
  {
    CatalogEntries();
    assert WellFormedEntry(Catalog(), key);
  }

  /** The names of `names` that `keep` accepts, in order. */
  function Filter(names: seq<string>, keep: string -> bool): (r: seq<string>)
    ensures forall x | x in r :: x in names && keep(x)
    ensures forall x | x in names && keep(x) :: x in r
    ensures |r| <= |names|
  {
    if names == [] then []
    else
      var init, last := names[..|names| - 1], names[|names| - 1];
      assert names == init + [last];
      Filter(init, keep) + (if keep(last) then [last] else [])
  }

  /** The complement of a predicate on names. */
  function Not(p: string -> bool): string -> bool {
    name => !p(name)
  }

  /** What the two filters make of `names` together is a rearrangement of it. */
  lemma {:induction false} FilterPartition(names: seq<string>, keep: string -> bool)
    ensures multiset(Filter(names, keep)) + multiset(Filter(names, Not(keep))) == multiset(names)
  {
    if names != [] {
      var init, last := names[..|names| - 1], names[|names| - 1];
      assert names == init + [last];
      FilterPartition(init, keep);
    }
  }

  /** `CATALOG.items()`: the catalog's products in insertion order. */
  function CatalogItems(): (items: seq<Product>)
    ensures |items| == |CatalogOrder|
    ensures forall i | 0 <= i < |items| :: items[i] in Catalog().Values && items[i].key == CatalogOrder[i]
  {
    CatalogEntries();
    seq(|CatalogOrder|, i requires 0 <= i < |CatalogOrder| => Catalog()[CatalogOrder[i]])
  }

  /** The default image of each product, in order. */
  function DefaultImagesOf(items: seq<Product>): (names: seq<string>)
    ensures |names| == |items|
  {
    seq(|items|, i requires 0 <= i < |items| => items[i].defaultImage)
  }

  /** The default image of every catalog product, in catalog order. */
  function DefaultImages(): seq<string> {
    DefaultImagesOf(CatalogItems())
  }

  /** The checklist's names are `<key>.jpg` for each key, in catalog order. */
  lemma DefaultImagesAreKeys()
    ensures forall i | 0 <= i < |CatalogOrder| :: DefaultImages()[i] == CatalogOrder[i] + ".jpg"
  {
    CatalogEntries();
    forall i | 0 <= i < |CatalogOrder|
      ensures DefaultImages()[i] == CatalogOrder[i] + ".jpg"
    {
      assert WellFormedEntry(Catalog(), CatalogOrder[i]);
    }
  }

  /**
   * The base-image checklist: walks the products in order (the checklist is
   * run on `CatalogItems()`) and files each default image under found or
   * missing according to `isFile`.
   */
  method ImageChecklist(items: seq<Product>, isFile: string -> bool) returns (found: seq<string>, missing: seq<string>)
    ensures found == Filter(DefaultImagesOf(items), isFile)
    ensures missing == Filter(DefaultImagesOf(items), Not(isFile))
    ensures multiset(found) + multiset(missing) == multiset(DefaultImagesOf(items))
  {
    ghost var images := DefaultImagesOf(items);
    found, missing := [], [];
    var i := 0;
    while i < |items|
      invariant 0 <= i <= |items|
      invariant found == Filter(images[..i], isFile)
      invariant missing == Filter(images[..i], Not(isFile))
    {
      var prod := items[i];
      assert images[..i + 1][..i] == images[..i];
      assert images[..i + 1][i] == prod.defaultImage;
      if isFile(prod.defaultImage) {
        found := found + [prod.defaultImage];
      } else {
        missing := missing + [prod.defaultImage];
      }
      i := i + 1;
    }
    assert images[..i] == images;
    FilterPartition(images, isFile);
  }
}
