/** `main` (App.py) with the Streamlit calls taken out: the CUIT check that
    gates the lookups, the `datos` record, and the choice of result card for
    each portal, made by substring tests on the classifier's text. */
module Dashboard {
  import opened Text
  import opened Probe
  import Arba
  import Corrientes
  import Cordoba
  import Cuit

  /** `st.success`, `st.error`, `st.warning`, `st.info`. */
  datatype Tone = Success | Error | Warning | Info

  /** A result card: its tone, its text, and whether a link to the portal's
      own page is shown under it. */
  datatype Card = Card(tone: Tone, text: string, portalLink: bool)

  /** The Buenos Aires column: "Sin Deuda" first, then "Error", else a
      warning with a link to ARBA's page. */
  function ArbaCard(res: string): Card {
    if Contains(res, "Sin Deuda") then Card(Success, res, false)
    else if Contains(res, "Error") then Card(Error, res, false)
    else Card(Warning, res, true)
  }

  /** The Corrientes column: "Sin antecedentes" is a success, anything else
      an info card with a link to the DGR page. */
  function CorrientesCard(res: string): Card {
    if Contains(res, "Sin antecedentes") then Card(Success, res, false)
    else Card(Info, res, true)
  }

  /** The Córdoba column does not look at `consultar_cordoba`'s text. */
  const CordobaCard := Card(Info, "Consulta Web Requerida", true)

  /** The `datos` dictionary handed to the report. */
  datatype Report = Report(cuit: string, arba: string, corrientes: string, cordoba: string)

  /** What the page shows after a run of the form: nothing (not submitted),
      the invalid-CUIT warning, or the three result cards. */
  datatype Page =
    | Idle
    | InvalidCuit
    | Results(report: Report, arbaCard: Card, corrientesCard: Card, cordobaCard: Card)

  /** One run of the form. `arba` and `corrientes` are what each portal
      answers for this CUIT; they are only read once the CUIT is accepted. */
  function Submit(submitted: bool, input: string, arba: Response, corrientes: Response): (p: Page)
    ensures p.Idle? <==> !submitted
    ensures p.InvalidCuit? <==> submitted && !Cuit.IsValid(input)
    ensures p.Results? <==> submitted && Cuit.IsValid(input)
    ensures p.Results? ==> p.report == Report(input, Arba.Consult(arba), Corrientes.Consult(corrientes), Cordoba.Consult(input))
    ensures p.Results? ==> p.arbaCard.text == p.report.arba && p.corrientesCard.text == p.report.corrientes
    ensures p.Results? ==>
      p.arbaCard == ArbaCard(p.report.arba) && p.corrientesCard == CorrientesCard(p.report.corrientes) &&
      p.cordobaCard == CordobaCard
    ensures p.Results? ==>
      (p.arbaCard.tone == Success <==> IsOkReply(arba) && Arba.ReportsNoDebt(arba.body))
    ensures p.Results? ==> (p.arbaCard.tone == Error <==> !IsOkReply(arba))
    ensures p.Results? ==>
      (p.corrientesCard.tone == Success <==> IsOkReply(corrientes) && Corrientes.ReportsNoRecords(corrientes.body))
    ensures p.Results? ==> p.cordobaCard.tone == Info
  {
    if !submitted then Idle
    else if !Cuit.IsValid(input) then InvalidCuit
    else
      var resArba := Arba.Consult(arba);
      var resCorrientes := Corrientes.Consult(corrientes);
      var resCordoba := Cordoba.Consult(input);
      ArbaCardMatchesOutcome(arba);
      CorrientesCardMatchesOutcome(corrientes);
      Results(Report(input, resArba, resCorrientes, resCordoba),
              ArbaCard(resArba), CorrientesCard(resCorrientes), CordobaCard)
  }

  /** A refused CUIT leads to the warning whatever the portals would have
      answered: no lookup result can reach the page. */
  lemma InvalidCuitIgnoresPortals(input: string, arba1: Response, corrientes1: Response,
                                  arba2: Response, corrientes2: Response)
    requires !Cuit.IsValid(input)
    ensures Submit(true, input, arba1, corrientes1) == Submit(true, input, arba2, corrientes2) == InvalidCuit
  {
  }

  /** Which card each ARBA outcome gets: no debt is a success, both error
      outcomes are errors, debt and a non-standard answer are warnings. */
  lemma ArbaCardOfStatus(s: Arba.Status)
    ensures ArbaCard(Arba.Render(s)).tone ==
      if s.NoDebt? then Success
      else if s.HttpError? || s.ConnectionError? then Error
      else Warning
  {
    match s
    case NoDebt => NoDebtIsSuccess();
    case Debt => DebtIsWarning();
    case NonStandard => NonStandardIsWarning();
    case HttpError(code) => HttpErrorIsError(code);
    case ConnectionError => ConnectionErrorIsError();
  }

  lemma NoDebtIsSuccess()
    ensures ArbaCard(Arba.NoDebtText).tone == Success
  {
    ContainsAt(Arba.NoDebtText, "Sin Deuda", 2);
  }

  lemma DebtIsWarning()
    ensures ArbaCard(Arba.DebtText).tone == Warning
  {
    WarningWithoutMarkers(Arba.DebtText);
  }

  lemma NonStandardIsWarning()
    ensures ArbaCard(Arba.NonStandardText).tone == Warning
  {
    WarningWithoutMarkers(Arba.NonStandardText);
  }

  lemma HttpErrorIsError(code: int)
    ensures ArbaCard(HttpErrorText(code)).tone == Error
  {
    HttpErrorTextLacks(code, "Sin Deuda", 'S');
    HttpErrorTextSaysError(code);
  }

  lemma ConnectionErrorIsError()
    ensures ArbaCard(Arba.ConnectionErrorText).tone == Error
  {
    MissingCharNotContained(Arba.ConnectionErrorText, "Sin Deuda", 'S');
    ContainsAt(Arba.ConnectionErrorText, "Error", 0);
  }

  /** A text with no capital 'S' and no capital 'E' falls through to the warning card. */
  lemma WarningWithoutMarkers(res: string)
    requires Lacks(res, 'S') && Lacks(res, 'E')
    ensures ArbaCard(res).tone == Warning
  {
    MissingCharNotContained(res, "Sin Deuda", 'S');
    MissingCharNotContained(res, "Error", 'E');
  }

  /** The ARBA card read against the portal's answer: a success exactly when a
      200 body has a no-debt marker, an error exactly when the request failed
      or the status was not 200, a warning (with the portal link) otherwise. */
  lemma ArbaCardMatchesOutcome(r: Response)
    ensures ArbaCard(Arba.Consult(r)).text == Arba.Consult(r)
    ensures ArbaCard(Arba.Consult(r)).tone == Success <==> IsOkReply(r) && Arba.ReportsNoDebt(r.body)
    ensures ArbaCard(Arba.Consult(r)).tone == Error <==> !IsOkReply(r)
    ensures ArbaCard(Arba.Consult(r)).tone == Warning <==> IsOkReply(r) && !Arba.ReportsNoDebt(r.body)
    ensures ArbaCard(Arba.Consult(r)).portalLink <==> ArbaCard(Arba.Consult(r)).tone == Warning
  {
    ArbaCardOfStatus(Arba.Classify(r));
  }

  /** Which card each Corrientes outcome gets: only "no records" is a success. */
  lemma CorrientesCardOfStatus(s: Corrientes.Status)
    ensures CorrientesCard(Corrientes.Render(s)).tone == if s.NoRecords? then Success else Info
  {
    match s
    case NoRecords => NoRecordsIsSuccess();
    case Registered => RegisteredIsInfo();
    case HttpError(code) => HttpErrorTextLacks(code, "Sin antecedentes", 'S');
    case ConnectionError => ConnectionErrorIsInfo();
  }

  lemma RegisteredIsInfo()
    ensures CorrientesCard(Corrientes.RegisteredText).tone == Info
  {
    InfoWithoutCapitalS(Corrientes.RegisteredText);
  }

  lemma ConnectionErrorIsInfo()
    ensures CorrientesCard(Corrientes.ConnectionErrorText).tone == Info
  {
    InfoWithoutCapitalS(Corrientes.ConnectionErrorText);
  }

  lemma NoRecordsIsSuccess()
    ensures CorrientesCard(Corrientes.NoRecordsText).tone == Success
  {
    ContainsAt(Corrientes.NoRecordsText, "Sin antecedentes", 2);
  }

  /** A text with no capital 'S' gets the info card. */
  lemma InfoWithoutCapitalS(res: string)
    requires Lacks(res, 'S')
    ensures CorrientesCard(res).tone == Info
  {
    MissingCharNotContained(res, "Sin antecedentes", 'S');
  }

  /** The Corrientes card read against the portal's answer: a success exactly
      when a 200 body has a no-record phrase, an info card with the portal
      link in every other case, errors included. */
  lemma CorrientesCardMatchesOutcome(r: Response)
    ensures CorrientesCard(Corrientes.Consult(r)).text == Corrientes.Consult(r)
    ensures CorrientesCard(Corrientes.Consult(r)).tone == Success <==>
      IsOkReply(r) && Corrientes.ReportsNoRecords(r.body)
    ensures CorrientesCard(Corrientes.Consult(r)).tone != Success ==>
      CorrientesCard(Corrientes.Consult(r)).tone == Info && CorrientesCard(Corrientes.Consult(r)).portalLink
  {
    CorrientesCardOfStatus(Corrientes.Classify(r));
  }
}
