/** Decoding a budget label into the numeric floor `recommend` compares against. */
module Budgets {
  import opened Form

  /** The label-to-floor table of `budget_to_number`. */
  const Floors: map<string, int> := map[
    "Under $300" := 0,
    "$300\U{2013}$500" := 300,
    "$500\U{2013}$1,000" := 500,
    "$1,000\U{2013}$2,500" := 1000,
    "$2,500\U{2013}$5,000" := 2500,
    "$5,000+" := 5000
  ]

  /** `budget_to_number(label)`: the floor of a known label, 0 for anything else. */
  function BudgetToNumber(budgetLabel: string): (n: int)
    ensures n in {0, 300, 500, 1000, 2500, 5000}
    ensures budgetLabel !in BudgetLabels ==> n == 0
  {
    if budgetLabel in Floors then Floors[budgetLabel] else 0
  }

  /** The floor of each dropdown label, position by position. */
  lemma LabelFloors()
    ensures BudgetToNumber(BudgetLabels[0]) == 0
    ensures BudgetToNumber(BudgetLabels[1]) == 300
    ensures BudgetToNumber(BudgetLabels[2]) == 500
    ensures BudgetToNumber(BudgetLabels[3]) == 1000
    ensures BudgetToNumber(BudgetLabels[4]) == 2500
    ensures BudgetToNumber(BudgetLabels[5]) == 5000
  {
  }

  /** Only the two top labels reach a floor of $2,000. */
  lemma HighFloors(budgetLabel: string)
    ensures BudgetToNumber(budgetLabel) >= 2000 <==> budgetLabel == BudgetLabels[4] || budgetLabel == BudgetLabels[5]
  {
    LabelFloors();
    if budgetLabel !in BudgetLabels {
      assert BudgetToNumber(budgetLabel) == 0;
    }
  }

  /** Floors strictly increase along the dropdown order. */
  lemma FloorsIncrease(i: int, j: int)
    requires 0 <= i < j < |BudgetLabels|
    ensures BudgetToNumber(BudgetLabels[i]) < BudgetToNumber(BudgetLabels[j])
  {
    LabelFloors();
  }

  /** Each floor value is produced by exactly one dropdown label. */
  lemma FloorsIdentifyLabels(budgetLabel: string)
    requires budgetLabel in BudgetLabels
    ensures forall i | 0 <= i < |BudgetLabels| ::
      BudgetToNumber(BudgetLabels[i]) == BudgetToNumber(budgetLabel) <==> BudgetLabels[i] == budgetLabel
  {
    LabelFloors();
  }
}
