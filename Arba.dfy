/** `consultar_arba` (App.py): the public-debt lookup at ARBA, the Buenos
    Aires province revenue agency, reduced to how it classifies the portal's
    answer. The request itself is the `Response` it is given. */
module Arba {
  import opened Text
  import opened Probe

  /** The five outcomes `consultar_arba` can report. */
  datatype Status = NoDebt | Debt | NonStandard | HttpError(code: int) | ConnectionError

  // The longer texts are written as two literals joined, which keeps
  // the verifier's reasoning about their characters cheap.
  const NoDebtText := "\U{2705} Sin Deuda Registrada"
  const DebtText := "\U{26A0}\U{FE0F} Registra Deuda / " + "Planes (Verificar en web)"
  const NonStandardText := "\U{2139}\U{FE0F} Consultar " + "manualmente (Respuesta no est\U{E1}ndar)"
  const ConnectionErrorText := "Error de conexi\U{F3}n " + "(Posible bloqueo)"

  /** The body says there is no debt: the exact phrase "No registra deuda",
      or "SIN DEUDA" once the body is upper-cased. */
  predicate ReportsNoDebt(body: string) {
    Contains(body, "No registra deuda") || Contains(Upper(body), "SIN DEUDA")
  }

  /** The body shows a debt total. */
  predicate ReportsDebtTotal(body: string) {
    Contains(body, "Total de Deuda")
  }

  /** The branch `consultar_arba` takes: an exception first, then a non-200
      status, then the no-debt markers ahead of the debt total. */
  function Classify(r: Response): Status {
    match r
    case ConnectionFailure => ConnectionError
    case Reply(status, body) =>
      if status == Ok then
        if ReportsNoDebt(body) then NoDebt
        else if ReportsDebtTotal(body) then Debt
        else NonStandard
      else HttpError(status)
  }

  /** The literal string returned for each outcome. */
  function Render(s: Status): string {
    match s
    case NoDebt => NoDebtText
    case Debt => DebtText
    case NonStandard => NonStandardText
    case HttpError(code) => HttpErrorText(code)
    case ConnectionError => ConnectionErrorText
  }

  /** `consultar_arba`: the text stored in the report and shown on the card. */
  function Consult(r: Response): string {
    Render(Classify(r))
  }

  /** A failed request never escapes: it becomes the fixed connection-error text. */
  lemma ConnectionFailureIsReported()
    ensures Consult(ConnectionFailure) == "Error de conexi\U{F3}n (Posible bloqueo)"
  {
  }

  /** Any status but 200 gives `Error HTTP <code>`, whatever the body says. */
  lemma NonOkIsHttpError(status: int, body: string)
    requires status != Ok
    ensures Classify(Reply(status, body)) == HttpError(status)
    ensures Consult(Reply(status, body)) == HttpErrorPrefix + IntToString(status)
  {
  }

  /** A 200 reply always lands in exactly one of the three readable outcomes,
      the no-debt markers taking priority over the debt total. */
  lemma OkReplyCases(body: string)
    ensures Classify(Reply(Ok, body)) in {NoDebt, Debt, NonStandard}
    ensures Classify(Reply(Ok, body)) == NoDebt <==> ReportsNoDebt(body)
    ensures Classify(Reply(Ok, body)) == Debt <==> !ReportsNoDebt(body) && ReportsDebtTotal(body)
    ensures Classify(Reply(Ok, body)) == NonStandard <==> !ReportsNoDebt(body) && !ReportsDebtTotal(body)
  {
  }

  /** The upper-cased test finds "sin deuda" in any mix of letter case,
      anywhere in the body. */
  lemma NoDebtInAnyCase(before: string, word: string, after: string)
    requires Upper(word) == "SIN DEUDA"
    ensures Classify(Reply(Ok, before + word + after)) == NoDebt
  {
    var body := before + word + after;
    assert body[|before|..|before| + |word|] == word;
    UpperKeepsOccurrence(body, word, |before|);
  }

  /** Any body that shows a debt total and later says "No registra deuda" is
      classified as no debt: the no-debt test runs first. */
  lemma NoDebtOverridesTotal(before: string, mid: string, after: string)
    ensures var body := before + "Total de Deuda" + mid + "No registra deuda" + after;
      ReportsDebtTotal(body) && Classify(Reply(Ok, body)) == NoDebt
  {
    var body := before + "Total de Deuda" + mid + "No registra deuda" + after;
    var j := |before| + |"Total de Deuda"| + |mid|;
    assert body[|before|..|before| + |"Total de Deuda"|] == "Total de Deuda";
    assert OccursAt(body, "Total de Deuda", |before|);
    assert body[j..j + |"No registra deuda"|] == "No registra deuda";
    assert OccursAt(body, "No registra deuda", j);
  }

  /** Different outcomes are reported by different texts, so the report text
      tells which branch was taken (and, for an HTTP error, which code). */
  lemma RenderInjective(a: Status, b: Status)
    ensures Render(a) == Render(b) <==> a == b
  {
    if a.HttpError? && b.HttpError? {
      HttpErrorTextInjective(a.code, b.code);
    } else if Render(a) == Render(b) {
      RenderShape(a);
      RenderShape(b);
    }
  }

  /** The lengths and last characters that tell the five texts apart. */
  lemma RenderShape(s: Status)
    ensures s.NoDebt? ==> |Render(s)| == 22
    ensures s.Debt? ==> |Render(s)| == 45
    ensures s.NonStandard? ==> |Render(s)| == 48
    ensures s.ConnectionError? ==> |Render(s)| == 35
    ensures |Render(s)| > 0 && (IsDigit(Render(s)[|Render(s)| - 1]) <==> s.HttpError?)
  {
  }
}
