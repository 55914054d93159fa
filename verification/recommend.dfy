/** The recommendation decision table, `recommend`. */
module Recommendation {
  import opened Form
  import opened Budgets
  import opened Products

  /**
   * The return statements of `recommend`, in source order: which rule of the
   * priority list (style, then budget, then occasion, then budget tier) fired.
   */
  datatype Rule =
    | IcedOutStyle          // style "Iced Out"
    | LuxuryDressy          // "Luxury", budget >= 2000, daily or formal occasion
    | LuxuryOther           // "Luxury", budget >= 2000, any other occasion
    | LuxuryAspirational    // "Luxury", budget < 2000
    | Budget5000            // budget >= 5000
    | Budget2500Gift        // budget >= 2500, gift or wedding
    | Budget2500Other       // budget >= 2500, any other occasion
    | Budget1000Gift        // budget >= 1000, gift, wedding or anniversary
    | Budget1000Party       // budget >= 1000, party
    | Budget1000Other       // budget >= 1000, any other occasion
    | PartyUpper            // party, budget >= 600
    | PartyLower            // party, budget < 600
    | GiftUpper             // gift, wedding or anniversary, budget >= 800
    | GiftLower             // gift, wedding or anniversary, budget < 800
    | FormalUpper           // business/formal, budget >= 400
    | FormalLower           // business/formal, budget < 400
    | TierBox               // budget < 300
    | TierFigaro            // budget < 500
    | TierRope              // budget < 1000
    | TierCuban             // the final else

  /** Occasions that count as gifts in the budget and occasion rules. */
  const GiftOccasions: seq<string> := ["Gift", "Wedding/Engagement", "Anniversary"]

  /** The if/elif chain of `recommend` after the budget label is decoded. */
  function RuleFor(budget: int, style: string, occasion: string): (r: Rule)
    ensures r == IcedOutStyle <==> style == "Iced Out"
    ensures r in {LuxuryDressy, LuxuryOther, LuxuryAspirational} <==> style == "Luxury"
  {
    if style == "Iced Out" then IcedOutStyle
    else if style == "Luxury" then
      if budget >= 2000 then
        if occasion in ["Daily Wear", "Business/Formal"] then LuxuryDressy else LuxuryOther
      else LuxuryAspirational
    else if budget >= 5000 then Budget5000
    else if budget >= 2500 then
      if occasion == "Gift" || occasion == "Wedding/Engagement" then Budget2500Gift
      else Budget2500Other
    else if budget >= 1000 then
      if occasion in GiftOccasions then Budget1000Gift
      else if occasion == "Party/Club" then Budget1000Party
      else Budget1000Other
    else if occasion == "Party/Club" then
      if budget >= 600 then PartyUpper else PartyLower
    else if occasion in GiftOccasions then
      if budget >= 800 then GiftUpper else GiftLower
    else if occasion == "Business/Formal" then
      if budget >= 400 then FormalUpper else FormalLower
    else if budget < 300 then TierBox
    else if budget < 500 then TierFigaro
    else if budget < 1000 then TierRope
    else TierCuban
  }

  /** The `CATALOG` key each return statement looks up; every one of them is a catalog key. */
  function RuleProduct(rule: Rule): (key: string)
    ensures key in CatalogOrder
  {
    match rule
    case IcedOutStyle => IcedChain
    case LuxuryDressy => TennisBracelet
    case LuxuryOther => DiamondStuds
    case LuxuryAspirational => TennisBracelet
    case Budget5000 => TennisBracelet
    case Budget2500Gift => DiamondStuds
    case Budget2500Other => IcedChain
    case Budget1000Gift => DiamondStuds
    case Budget1000Party => IcedChain
    case Budget1000Other => CubanChain
    case PartyUpper => CubanChain
    case PartyLower => RopeChain
    case GiftUpper => DiamondStuds
    case GiftLower => RopeChain
    case FormalUpper => HerringboneChain
    case FormalLower => BoxChain
    case TierBox => BoxChain
    case TierFigaro => FigaroChain
    case TierRope => RopeChain
    case TierCuban => CubanChain
  }

  /** The key of the product `recommend` returns; the metal plays no part in it. */
  function RecommendedKey(budgetLabel: string, style: string, occasion: string): (key: string)
    ensures key in CatalogOrder
  {
    RuleProduct(RuleFor(BudgetToNumber(budgetLabel), style, occasion))
  }

  /** `recommend(budget_label, metal, style, occasion)`: always one of the catalog's products. */
  function Recommend(budgetLabel: string, metal: string, style: string, occasion: string): (p: Product)
    ensures p in Catalog().Values
  {
    Catalog()[RecommendedKey(budgetLabel, style, occasion)]
  }

  /** A style that none of the style rules singles out. */
  predicate PlainStyle(style: string) {
    style != "Iced Out" && style != "Luxury"
  }

  /** The recommended product is the catalog entry filed under its own key. */
  lemma RecommendKey(budgetLabel: string, metal: string, style: string, occasion: string)
    ensures Recommend(budgetLabel, metal, style, occasion).key == RecommendedKey(budgetLabel, style, occasion)
    ensures Catalog()[Recommend(budgetLabel, metal, style, occasion).key]
         == Recommend(budgetLabel, metal, style, occasion)
  {
    CatalogEntries();
  }

  /** The metal preference never changes the recommendation. */
  lemma RecommendIgnoresMetal(budgetLabel: string, metal1: string, metal2: string, style: string, occasion: string)
    ensures Recommend(budgetLabel, metal1, style, occasion) == Recommend(budgetLabel, metal2, style, occasion)
  {
  }

  /** "Iced Out" wins over every budget and occasion. */
  lemma IcedOutWins(budgetLabel: string, occasion: string)
    ensures RecommendedKey(budgetLabel, "Iced Out", occasion) == IcedChain
  {
  }

  /**
   * "Luxury" gives the diamond studs exactly when the budget is one of the two
   * top labels and the occasion is neither daily wear nor business/formal;
   * otherwise the tennis bracelet.
   */
  lemma LuxuryChoice(budgetLabel: string, occasion: string)
    ensures var key := RecommendedKey(budgetLabel, "Luxury", occasion);
      (key == DiamondStuds <==>
         (budgetLabel == BudgetLabels[4] || budgetLabel == BudgetLabels[5])
         && occasion != "Daily Wear" && occasion != "Business/Formal")
      && (key == DiamondStuds || key == TennisBracelet)
  {
    HighFloors(budgetLabel);
  }

  /** "Simple", "Classic", "Trendy" and every other plain style are treated alike. */
  lemma PlainStylesAgree(budgetLabel: string, metal: string, style1: string, style2: string, occasion: string)
    requires PlainStyle(style1) && PlainStyle(style2)
    ensures Recommend(budgetLabel, metal, style1, occasion) == Recommend(budgetLabel, metal, style2, occasion)
  {
  }

  /** Budget rules for plain styles: the two top budget labels. */
  lemma TopBudgets(budgetLabel: string, style: string, occasion: string)
    requires PlainStyle(style)
    ensures budgetLabel == BudgetLabels[5] ==>
      RecommendedKey(budgetLabel, style, occasion) == TennisBracelet
    ensures budgetLabel == BudgetLabels[4] ==>
      RecommendedKey(budgetLabel, style, occasion)
        == if occasion == "Gift" || occasion == "Wedding/Engagement" then DiamondStuds else IcedChain
  {
    LabelFloors();
  }

  /** Budget rules for plain styles: the "$1,000-$2,500" label. */
  lemma MiddleBudget(budgetLabel: string, style: string, occasion: string)
    requires PlainStyle(style) && budgetLabel == BudgetLabels[3]
    ensures RecommendedKey(budgetLabel, style, occasion)
      == if occasion in GiftOccasions then DiamondStuds
         else if occasion == "Party/Club" then IcedChain
         else CubanChain
  {
    LabelFloors();
  }

  /**
   * Daily wear on a budget below $1,000 follows the tiers box, figaro, rope,
   * for plain styles.
   */
  lemma DailyWearTiers(budgetLabel: string, style: string)
    requires PlainStyle(style) && BudgetToNumber(budgetLabel) < 1000
    ensures RecommendedKey(budgetLabel, style, "Daily Wear")
      == if BudgetToNumber(budgetLabel) < 300 then BoxChain
         else if BudgetToNumber(budgetLabel) < 500 then FigaroChain
         else RopeChain
  {
  }

  /**
   * The occasion rules below $1,000 for plain styles, for any integer budget:
   * party, gift-like and formal occasions each split at their own threshold.
   */
  lemma OccasionTiers(budget: int, style: string, occasion: string)
    requires PlainStyle(style) && budget < 1000
    ensures occasion == "Party/Club" ==>
      RuleProduct(RuleFor(budget, style, occasion)) == if budget >= 600 then CubanChain else RopeChain
    ensures occasion in GiftOccasions ==>
      RuleProduct(RuleFor(budget, style, occasion)) == if budget >= 800 then DiamondStuds else RopeChain
    ensures occasion == "Business/Formal" ==>
      RuleProduct(RuleFor(budget, style, occasion)) == if budget >= 400 then HerringboneChain else BoxChain
  {
  }

  /**
   * With the form's budget labels, a plain-style customer below $1,000 gets
   * the rope chain for a party or a gift, and the herringbone or box chain
   * for a formal occasion.
   */
  lemma OccasionRules(budgetLabel: string, style: string, occasion: string)
    requires PlainStyle(style) && BudgetToNumber(budgetLabel) < 1000
    ensures occasion == "Party/Club" ==> RecommendedKey(budgetLabel, style, occasion) == RopeChain
    ensures occasion in GiftOccasions ==> RecommendedKey(budgetLabel, style, occasion) == RopeChain
    ensures occasion == "Business/Formal" ==>
      RecommendedKey(budgetLabel, style, occasion) == if BudgetToNumber(budgetLabel) >= 400 then HerringboneChain else BoxChain
  {
  }

  /** The final `cuban_chain` return is dead: every budget of $1,000 or more has returned earlier. */
  lemma TierCubanUnreachable(budget: int, style: string, occasion: string)
    ensures RuleFor(budget, style, occasion) != TierCuban
  {
  }

  /**
   * With the six dropdown budgets (floors 0, 300, 500 below $1,000), the
   * party rule's `budget >= 600` and the gift rule's `budget >= 800` never hold.
   */
  lemma DeadRulesForDropdownBudgets(budgetLabel: string, style: string, occasion: string)
    ensures RuleFor(BudgetToNumber(budgetLabel), style, occasion) !in {PartyUpper, GiftUpper, TierCuban}
  {
  }

  /** A selection from the form for each of the two cheapest chains. */
  lemma LowWitnesses()
    ensures RecommendedKey(BudgetLabels[0], "Simple", "Daily Wear") == BoxChain
    ensures RecommendedKey(BudgetLabels[1], "Simple", "Daily Wear") == FigaroChain
  {
    LabelFloors();
  }

  /** A selection from the form for the rope and cuban chains. */
  lemma MidWitnesses()
    ensures RecommendedKey(BudgetLabels[2], "Simple", "Daily Wear") == RopeChain
    ensures RecommendedKey(BudgetLabels[3], "Simple", "Daily Wear") == CubanChain
  {
    LabelFloors();
  }

  /** A selection from the form for each of the other four products. */
  lemma OtherWitnesses()
    ensures RecommendedKey(BudgetLabels[0], "Iced Out", "Daily Wear") == IcedChain
    ensures RecommendedKey(BudgetLabels[5], "Simple", "Daily Wear") == TennisBracelet
    ensures RecommendedKey(BudgetLabels[4], "Simple", "Gift") == DiamondStuds
    ensures RecommendedKey(BudgetLabels[2], "Simple", "Business/Formal") == HerringboneChain
  {
    LabelFloors();
  }

  /** Every catalog product is recommended for some budget, style and occasion the form offers. */
  lemma EveryProductRecommended(key: string)
    requires key in CatalogOrder
    ensures exists b, s, o | b in BudgetLabels && s in Styles && o in Occasions ::
      RecommendedKey(b, s, o) == key
  {
    LowWitnesses();
    MidWitnesses();
    OtherWitnesses();
    var simple, iced, daily := Styles[0], Styles[3], Occasions[0];
    var i :| 0 <= i < |CatalogOrder| && CatalogOrder[i] == key;
    var (b, s, o) :=
      if i == 0 then (BudgetLabels[1], simple, daily)
      else if i == 1 then (BudgetLabels[2], simple, daily)
      else if i == 2 then (BudgetLabels[3], simple, daily)
      else if i == 3 then (BudgetLabels[0], iced, daily)
      else if i == 4 then (BudgetLabels[5], simple, daily)
      else if i == 5 then (BudgetLabels[4], simple, Occasions[1])
      else if i == 6 then (BudgetLabels[2], simple, Occasions[4])
      else (BudgetLabels[0], simple, daily);
    assert RecommendedKey(b, s, o) == key;
  }
}
