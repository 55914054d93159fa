/** The option lists of the four dropdowns of the customer form, in display order. */
module Form {

  /** Budget labels (app.py:469). The en-dash is U+2013. */
  const BudgetLabels: seq<string> := [
    "Under $300",
    "$300\U{2013}$500",
    "$500\U{2013}$1,000",
    "$1,000\U{2013}$2,500",
    "$2,500\U{2013}$5,000",
    "$5,000+"
  ]

  /** Metal preferences (app.py:475). */
  const Metals: seq<string> := ["Yellow Gold", "White Gold", "Rose Gold", "Silver", "Platinum"]

  /** Style preferences (app.py:481). */
  const Styles: seq<string> := ["Simple", "Classic", "Trendy", "Iced Out", "Luxury"]

  /** Occasions (app.py:487). */
  const Occasions: seq<string> := [
    "Daily Wear", "Gift", "Wedding/Engagement", "Party/Club", "Business/Formal", "Anniversary"
  ]

  /** No dropdown offers the same option twice. */
  lemma OptionsDistinct()
    ensures |BudgetLabels| == 6 && |Metals| == 5 && |Styles| == 5 && |Occasions| == 6
    ensures forall i, j | 0 <= i < j < |BudgetLabels| :: BudgetLabels[i] != BudgetLabels[j]
    ensures forall i, j | 0 <= i < j < |Metals| :: Metals[i] != Metals[j]
    ensures forall i, j | 0 <= i < j < |Styles| :: Styles[i] != Styles[j]
    ensures forall i, j | 0 <= i < j < |Occasions| :: Occasions[i] != Occasions[j]
  {
  }
}
