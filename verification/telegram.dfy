/** The phone-number check of the Telegram linking screen. The phone
    input widget hands over the number in international format; saving
    accepts it only when it is long enough and carries a `+` country
    prefix. The alert and the log line are abstracted to the outcome. */
module Telegram {
  import opened JsText

  const AlertTitle := "Invalid Number"
  const AlertMessage := "Please enter a valid international phone number."
  const MinLength := 10

  /** What pressing Save does: raise the invalid-number alert, or go on to
      save the number. */
  datatype SaveOutcome = InvalidNumberAlert(title: string, message: string) | Saved(number: string)

  /** `handleSave` on the formatted number. */
  function HandleSave(formatted: string): (r: SaveOutcome)
    ensures formatted == "" ==> r.InvalidNumberAlert?
    ensures |formatted| < MinLength ==> r.InvalidNumberAlert?
    ensures !StartsWith(formatted, "+") ==> r.InvalidNumberAlert?
    ensures r.Saved? <==> |formatted| >= MinLength && formatted[0] == '+'
    ensures r.Saved? ==> r.number == formatted
    ensures r.InvalidNumberAlert? ==> r == InvalidNumberAlert(AlertTitle, AlertMessage)
  {
    if formatted == [] || |formatted| < MinLength || !StartsWith(formatted, "+") then
      InvalidNumberAlert(AlertTitle, AlertMessage)
    else
      Saved(formatted)
  }

  /** The example on the screen is accepted; the same digits without the
      country prefix are not. */
  lemma ScreenExample()
    ensures HandleSave("+1 13812345678") == Saved("+1 13812345678")
    ensures HandleSave("13812345678").InvalidNumberAlert?
    ensures HandleSave("+1 138").InvalidNumberAlert?
  {
  }
}
