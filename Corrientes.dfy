/** `consultar_corrientes` (App.py): the taxpayer lookup at DGR Corrientes,
    the Corrientes province revenue office, reduced to how it classifies the
    portal's answer. The request itself is the `Response` it is given. */
module Corrientes {
  import opened Text
  import opened Probe

  /** The four outcomes `consultar_corrientes` can report. */
  datatype Status = NoRecords | Registered | HttpError(code: int) | ConnectionError

  // The longer text is written as two literals joined, which keeps the
  // verifier's reasoning about its characters cheap.
  const NoRecordsText := "\U{2705} Sin antecedentes registrados"
  const RegisteredText := "\U{26A0}\U{FE0F} Contribuyente " + "ACTIVO / Registrado"
  const ConnectionErrorText := "Error de conexi\U{F3}n"

  /** The body says the taxpayer is unknown, by one of two case-sensitive
      phrases; the body is not upper-cased here. */
  predicate ReportsNoRecords(body: string) {
    Contains(body, "No se registran datos") || Contains(body, "inexistente")
  }

  /** The branch `consultar_corrientes` takes: an exception first, then a
      non-200 status, then the no-record phrases. */
  function Classify(r: Response): Status {
    match r
    case ConnectionFailure => ConnectionError
    case Reply(status, body) =>
      if status == Ok then
        if ReportsNoRecords(body) then NoRecords else Registered
      else HttpError(status)
  }

  /** The literal string returned for each outcome. */
  function Render(s: Status): string {
    match s
    case NoRecords => NoRecordsText
    case Registered => RegisteredText
    case HttpError(code) => HttpErrorText(code)
    case ConnectionError => ConnectionErrorText
  }

  /** `consultar_corrientes`: the text stored in the report and shown on the card. */
  function Consult(r: Response): string {
    Render(Classify(r))
  }

  /** A failed request never escapes: it becomes the fixed connection-error text. */
  lemma ConnectionFailureIsReported()
    ensures Consult(ConnectionFailure) == "Error de conexi\U{F3}n"
  {
  }

  /** Any status but 200 gives `Error HTTP <code>`, whatever the body says. */
  lemma NonOkIsHttpError(status: int, body: string)
    requires status != Ok
    ensures Classify(Reply(status, body)) == HttpError(status)
    ensures Consult(Reply(status, body)) == HttpErrorPrefix + IntToString(status)
  {
  }

  /** A 200 reply is either "no records" or "registered", nothing else. */
  lemma OkReplyCases(body: string)
    ensures Classify(Reply(Ok, body)) in {NoRecords, Registered}
    ensures Classify(Reply(Ok, body)) == NoRecords <==> ReportsNoRecords(body)
  {
  }

  /** The phrases are matched with their exact letter case: a 200 body
      written all in capitals ("NO SE REGISTRAN DATOS", "CONTRIBUYENTE
      INEXISTENTE") is read as a registered taxpayer. */
  lemma AllCapsBodyIsRegistered(body: string)
    requires Upper(body) == body
    ensures Classify(Reply(Ok, body)) == Registered
  {
    forall k | 0 <= k < |body|
      ensures body[k] != 'o' && body[k] != 'i'
    {
      UpperAt(body, k);
    }
    MissingCharNotContained(body, "No se registran datos", 'o');
    MissingCharNotContained(body, "inexistente", 'i');
  }

  /** Either phrase anywhere in a 200 body, even amid other text, gives "no records". */
  lemma NoRecordsAnywhere(before: string, phrase: string, after: string)
    requires phrase == "No se registran datos" || phrase == "inexistente"
    ensures Classify(Reply(Ok, before + phrase + after)) == NoRecords
  {
    var body := before + phrase + after;
    assert body[|before|..|before| + |phrase|] == phrase;
    assert OccursAt(body, phrase, |before|);
  }

  /** Different outcomes are reported by different texts. */
  lemma RenderInjective(a: Status, b: Status)
    ensures Render(a) == Render(b) <==> a == b
  {
    if a.HttpError? && b.HttpError? {
      HttpErrorTextInjective(a.code, b.code);
    } else if Render(a) == Render(b) {
      RenderShape(a);
      RenderShape(b);
    }
  }

  /** The lengths and last characters that tell the four texts apart. */
  lemma RenderShape(s: Status)
    ensures s.NoRecords? ==> |Render(s)| == 30
    ensures s.Registered? ==> |Render(s)| == 36
    ensures s.ConnectionError? ==> |Render(s)| == 17
    ensures |Render(s)| > 0 && (IsDigit(Render(s)[|Render(s)| - 1]) <==> s.HttpError?)
  {
  }
}
