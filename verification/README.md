# Grand Jewelers sales tool: selection logic in Dafny

The sales tool is a single Streamlit page. A salesperson picks four customer
attributes: a budget label, a metal, a style and an occasion. The page then
shows one recommended product from a fixed catalog and that product's photo.
This project models the logic behind the page and proves properties of it:

- **Filename slugs** (`slug.dfy`, module `Slugs`). `Slug` mirrors `slug`: it
  lower-cases the input, then applies eight one-character replacements in the
  source's order. `MetalSlug` mirrors `metal_slug`: a fixed table for the five
  known metals, and `Slug` for anything else.
- **Budget labels** (`budget.dfy`, module `Budgets`). `BudgetToNumber` looks a
  label up in the six-entry floor table and gives 0 for an unknown label.
- **Catalog** (`products.dfy`, module `Products`). A product keeps its key, its
  default image name and its optional web fallback. `Catalog` is the
  eight-entry `CATALOG` table, and `CatalogOrder` is its insertion order.
- **Recommendation** (`recommend.dfy`, module `Recommendation`). `RuleFor` is
  the if/elif chain of `recommend`. Each of its twenty results stands for one
  `return` statement of the source. `RuleProduct` gives the catalog key that
  statement looks up. `Recommend` decodes the budget label, applies the chain
  and looks the key up. Naming the return statements lets the model state
  which of them can never fire.
- **Photo choice** (`images.dfy`, module `Images`). `ImageCandidates` builds
  the four candidate file names. `LoadBestImage` and its loop
  `SearchCandidates` pick the first candidate that loads locally. If none
  does, they report the first candidate. `ImageChecklist` is the loop that
  sorts the catalog's default images into found and missing.
- **Form options** (`form.dfy`, module `Form`). These are the four dropdown
  option lists, in display order.

Two predicates given as parameters stand for the outside world:
`loadsLocally(name)` (the file exists in the assets directory and opens as an
image) and `fetches(url)` (the web download succeeds). `ImageChecklist` takes
`isFile(name)` (the file exists).

Two things the proofs bring out about the decision table:

- The last `cuban_chain` return (the final `else` of the budget tiers) is
  dead for every integer budget, because every budget of 1000 or more has
  already returned.
- With the six dropdown labels, every budget below 1000 has a floor of 0, 300
  or 500. So the party rule's `budget >= 600` branch and the gift rule's
  `budget >= 800` branch never fire for form input.

## Model

| member | source | states |
|---|---|---|
| `Slugs.Lower` | app.py:105 | ASCII lower-casing keeps the length, maps each capital A-Z to its lower-case letter, keeps every other character, and leaves no capital |
| `Slugs.ReplaceChar` | app.py:106-113 | a one-character `str.replace` leaves a string without the pattern unchanged and removes the pattern when the replacement does not contain it |
| `Slugs.ReplaceCharAppend` | app.py:106-113 | a one-character replace distributes over concatenation |
| `Slugs.SlugAppend` | app.py:102-114 | slugging distributes over concatenation |
| `Slugs.SlugSingle` | app.py:104-114 | on one character, the chained replacements give the per-character table `SlugChar` |
| `Slugs.SlugIsCharwise` | app.py:102-114 | the chained `replace` calls equal an independent per-character rewrite (`SlugCharwise`) |
| `Slugs.SlugIsSafe` | app.py:102-114 | a slug contains no ASCII capital and none of space, `/`, `&`, `-`, en-dash, `$`, `,`, `+` |
| `Slugs.SlugFixedPoints` | app.py:102-114 | a string is its own slug if and only if it has no capital and no special character |
| `Slugs.SlugIdempotent` | app.py:102-114 | slugging a slug changes nothing |
| `Slugs.Slug` | app.py:102-114 | `slug(s)`: lower-case, then the eight replacements in source order. The function has no contract of its own. Its properties are stated by `SlugIsCharwise` (equal to a per-character rewrite), `SlugIsSafe`, `SlugFixedPoints`, `SlugIdempotent` and `SlugAppend` |
| `Slugs.MetalSlug` | app.py:117-126 | every input other than the five known metals gets `slug(metal)` |
| `Slugs.KnownMetalSlugs` | app.py:119-125 | the five known metals map to yellow, white, rose, silver and platinum |
| `Slugs.MetalSlugIsSafe` | app.py:117-126 | every metal slug is slug-safe |
| `Slugs.MetalSlugsDistinct` | app.py:475 | the five metals on the form get five different slugs |
| `Form.OptionsDistinct` | app.py:467-489 | the four dropdowns offer 6 budget labels, 5 metals, 5 styles and 6 occasions, and no dropdown lists an option twice |
| `Budgets.BudgetToNumber` | app.py:129-139 | the floor is one of 0, 300, 500, 1000, 2500, 5000, and any label outside the dropdown gives 0 |
| `Budgets.LabelFloors` | app.py:131-138 | the floor of each dropdown label, position by position |
| `Budgets.HighFloors` | app.py:131-139 | a floor of at least 2000 comes exactly from the two top labels |
| `Budgets.FloorsIncrease` | app.py:469 | floors strictly increase along the dropdown order |
| `Budgets.FloorsIdentifyLabels` | app.py:131-138 | two dropdown labels have the same floor only if they are the same label |
| `Products.Catalog` | app.py:207-312 | the catalog's keys are exactly the eight keys of its insertion order |
| `Products.CatalogEntries` | app.py:207-312 | every entry's `key` equals its map key, its `default_image` is key + ".jpg", and it has no web fallback |
| `Products.CatalogOrderDistinct` | app.py:207-312 | the insertion order lists each key once |
| `Recommendation.RuleFor` | app.py:326-379 | the if/elif chain, with one result per `return`. The result is the iced-out rule exactly when the style is "Iced Out", and one of the three luxury rules exactly when the style is "Luxury". The dead branches are stated by `TierCubanUnreachable` and `DeadRulesForDropdownBudgets` |
| `Recommendation.RuleProduct` | app.py:318-379 | every key a return statement looks up is in the catalog, so no lookup fails |
| `Recommendation.RecommendedKey` | app.py:318-379 | the recommended key is a catalog key, for every input |
| `Recommendation.Recommend` | app.py:318-379 | the result is always a value of the catalog (totality and catalog membership) |
| `Recommendation.RecommendKey` | app.py:318-379 | the recommended product's key is the rule's key, and the catalog files the product under that key |
| `Recommendation.RecommendIgnoresMetal` | app.py:318-379 | the metal preference never changes the recommendation |
| `Recommendation.IcedOutWins` | app.py:326-327 | style "Iced Out" gives the iced chain whatever the budget and occasion |
| `Recommendation.LuxuryChoice` | app.py:329-337 | style "Luxury" gives the diamond studs if and only if the budget is one of the two top labels and the occasion is neither "Daily Wear" nor "Business/Formal"; otherwise the tennis bracelet |
| `Recommendation.PlainStylesAgree` | app.py:318-379 | all styles other than "Iced Out" and "Luxury" give the same product for the same budget and occasion |
| `Recommendation.TopBudgets` | app.py:340-346 | for plain styles, "$5,000+" gives the tennis bracelet, and "$2,500–$5,000" gives the studs for gift or wedding and the iced chain otherwise |
| `Recommendation.MiddleBudget` | app.py:348-353 | for plain styles, "$1,000–$2,500" gives the studs for gift, wedding or anniversary, the iced chain for party, and the cuban chain otherwise |
| `Recommendation.OccasionTiers` | app.py:355-369 | for plain styles below 1000 and any integer budget: party gives the cuban chain from 600 and the rope chain below; gift, wedding or anniversary gives the studs from 800 and the rope chain below; formal gives the herringbone chain from 400 and the box chain below |
| `Recommendation.OccasionRules` | app.py:355-369 | with the dropdown labels, plain styles below 1000 get the rope chain for party and for gift, wedding or anniversary, and the herringbone chain (floor 400 or more) or box chain for formal |
| `Recommendation.DailyWearTiers` | app.py:371-379 | for plain styles, daily wear below 1000 follows the tiers box (below 300), figaro (below 500) and rope |
| `Recommendation.TierCubanUnreachable` | app.py:378-379 | the final `cuban_chain` return never fires, for any integer budget |
| `Recommendation.DeadRulesForDropdownBudgets` | app.py:356-364 | for dropdown budgets, the party rule's `>= 600` branch and the gift rule's `>= 800` branch never fire |
| `Recommendation.LowWitnesses` | app.py:372-375 | the two lowest labels with daily wear give the box and figaro chains |
| `Recommendation.MidWitnesses` | app.py:348-377 | the middle labels with daily wear give the rope and cuban chains |
| `Recommendation.OtherWitnesses` | app.py:326-368 | form selections that give the iced chain, the tennis bracelet, the studs and the herringbone chain |
| `Recommendation.EveryProductRecommended` | app.py:318-379 | every catalog product is recommended for some budget, style and occasion from the form |
| `Images.ImageCandidates` | app.py:385-399 | exactly four names; the first three are `.jpg` names; the third's stem is key + "_" + metal slug; each stem is the next one's stem plus "_" and the style or occasion slug; the last is the default image |
| `Images.NamesFrom` | app.py:394-399 | the same shape for the four f-strings, given the key, the three slugs and the default image |
| `Images.CandidatePrefixes` | app.py:395-397 | the first three candidates start with key + "_" + metal slug |
| `Images.CandidatesNarrow` | app.py:394-398 | when the default image is key + ".jpg", the four stems strictly shrink and the four candidates are pairwise different |
| `Images.CatalogCandidatesNarrow` | app.py:385-399 | for every catalog product the last candidate is key + ".jpg", and the four candidates are pairwise different |
| `Images.LoadImage` | app.py:402-427 | the outcome of `load_image_cached`: local exactly when the file loads locally; web exactly when the file does not load locally and the fallback URL is present, non-empty (`if fallback_url:`) and fetches; otherwise a placeholder |
| `Images.FirstLocal` | app.py:437-443 | returns the index of the first name that loads locally, with no earlier name loading; returns nothing exactly when no name loads |
| `Images.SearchCandidates` | app.py:437-449 | returns the first candidate that loads locally, as a local image; otherwise returns the first candidate with its non-local result (web or placeholder) |
| `Images.LoadBestImage` | app.py:430-449 | the same, for the product's four candidates |
| `Images.CatalogMissShowsPlaceholder` | app.py:417-427 | a catalog product has no web fallback, so a name that does not load locally shows a placeholder |
| `Images.Filter` | app.py:556-560 | keeps exactly the names the predicate accepts, and adds no other name |
| `Images.FilterPartition` | app.py:553-560 | the found and missing lists together are a rearrangement of the input |
| `Images.CatalogItems` | app.py:556 | `CATALOG.items()`: one catalog product per key, and the i-th product's key is the i-th key of the insertion order |
| `Images.DefaultImagesAreKeys` | app.py:556-560 | the checklist's names are key + ".jpg" for each key, in catalog order |
| `Images.ImageChecklist` | app.py:553-560 | `found` holds the existing default images in order, `missing` holds the rest in order, and together they hold every default image exactly once |

## Left out

- Streamlit page setup, CSS and all rendering (app.py:17-69, app.py:455-585) are left out. They are presentation only.
- `make_placeholder` (app.py:142-184) is left out: PIL drawing, font loading and float text centring. The model only records that a placeholder is shown.
- `load_image_cached` (app.py:402-427) is modelled only by its outcome, `LoadImage`. Opening files, the `urllib` download, `st.cache_data` memoisation and the `mtime` stat calls are left out. The cache key includes the file's modification time, so a given file state always gives the same outcome. The model assumes this.
- `get_assets_dir` (app.py:75-96) is left out: directory creation and globbing. File names are checked as given, without the directory part.
- The product text fields (title, category, price range, talk track, why it fits, add-on, keywords) are left out. No selection logic reads them.
- `Slugs.Lower`: lower-cases ASCII A-Z only. Python's `str.lower()` also folds non-ASCII letters. The model does not capture that.
- `Slugs.ReplaceChar`: models `str.replace` only for one-character patterns, because `slug` uses no other kind.
- `Images.ImageChecklist`: takes the product list as a parameter, to be run on `CatalogItems()`, the catalog's items in insertion order. It does not read the global table itself.
- The metal-specific examples list in the checklist expander (app.py:573-581) is left out. It only displays text.
- On the image fallback: when no candidate loads locally, the code tries the product's web fallback (app.py:418-424) before making a placeholder, and it reports the first candidate's name either way. The model follows this. The `fetches` predicate stands in for the download, and the model does not include the network timeout.
