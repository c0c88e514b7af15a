# Validador Fiscal Provincial: decision logic in Dafny

This project models the decision logic of the provincial tax-status checker in
`App.py`. A user types a CUIT, the Argentine taxpayer identifier. The app checks
that it is eleven digits. It then asks two provincial revenue portals, ARBA
(Buenos Aires) and DGR Corrientes, about that taxpayer. Each answer is reduced to
a fixed status text. A third jurisdiction, Rentas Córdoba, is a stub that always
asks for a manual check. The ARBA and Corrientes texts are each shown on a
result card whose tone (success, error, warning or info) is chosen by substring
tests on the text. The Córdoba card is a fixed info card with a link to the
portal; it never looks at the Córdoba text.

The model is pure, as the source is: datatypes, functions and lemmas.

- `Text` models the Python primitives the decisions use. These are the
  substring test `t in s`, `str.upper()`, `str.isdigit()` and `str(n)`.
- `Probe` models what a lookup returns: a `Response` that is either a
  connection failure (the `requests.get` raised) or a reply with a status code
  and a body. It also holds the shared `Error HTTP <code>` text.
- `Arba`, `Corrientes` and `Cordoba` model `consultar_arba`,
  `consultar_corrientes` and `consultar_cordoba`. For the first two, a
  `Classify` function picks the branch and a `Render` function gives the exact
  literal returned.
- `Cuit` models the form's CUIT check.
- `Dashboard` models `main`: the CUIT check that gates the lookups, the `datos`
  record, and the card chosen for each column.

The network is not modelled. What each portal answers is a parameter of
`Dashboard.Submit`, and `Submit` reads it only once the CUIT is accepted.

## Model

| member | source | states |
|---|---|---|
| `Cuit.ValidIff` | App.py:128 | A CUIT is accepted exactly when it has 11 characters and every one is a digit. |
| `Cuit.RejectsWrongLength` | App.py:128 | "123", twelve digits, the dashed form and the empty input are refused. |
| `Cuit.RejectsLetter` | App.py:128 | "1234567890a" is refused, although it has 11 characters. |
| `Cuit.AcceptsElevenDigitNumbers` | App.py:128 | The decimal text of every eleven-digit number is accepted. |
| `Text.AllDigitsIff` | App.py:128 | The recursive digit check used for `isdigit()` holds exactly when every character is a digit. |
| `Text.UpperKeepsOccurrence` | App.py:28 | Wherever a word occurs in the body, its upper-cased form occurs in the upper-cased body. |
| `Text.UpperCharTable` | App.py:28 | Each of the 26 lower-case ASCII letters upper-cases to the capital at the same place in the alphabet, and every other character is left unchanged. |
| `Text.DigitCharTable` | App.py:35 | The digit written for each value 0 to 9 is the matching character of "0123456789". |
| `Text.IntToStringRoundTrip` | App.py:35 | The status code written by `str()` can be read back, so the text loses nothing. |
| `Probe.HttpErrorTextRoundTrip` | App.py:34-35 | The non-200 text starts with "Error HTTP " and the status code can be parsed back from the rest. |
| `Probe.HttpErrorTextInjective` | App.py:34-35 | Two status codes give the same error text only if they are equal. |
| `Probe.HttpErrorTextSaysError` | App.py:35 | Every `Error HTTP <code>` text contains "Error". |
| `Probe.HttpErrorTextLacks` | App.py:35 | A pattern with a character that is not in "Error HTTP ", not a digit and not '-' never occurs in an error text. |
| `Arba.ConnectionFailureIsReported` | App.py:36-37 | A failed request does not propagate. It yields "Error de conexión (Posible bloqueo)". |
| `Arba.NonOkIsHttpError` | App.py:27-35 | Any status other than 200 yields exactly "Error HTTP " + str(status), whatever the body holds. |
| `Arba.OkReplyCases` | App.py:27-33 | A 200 reply is no-debt exactly when a no-debt marker is present. It is debt exactly when there is no marker and "Total de Deuda" is present. It is non-standard otherwise. These three cases cover every 200 body. |
| `Arba.NoDebtInAnyCase` | App.py:28-29 | "sin deuda" in any mix of letter case, anywhere in a 200 body, gives the no-debt result. |
| `Arba.NoDebtOverridesTotal` | App.py:28-31 | Every 200 body that shows "Total de Deuda" and, after it, "No registra deuda" is classified as no debt, because the no-debt test runs first. |
| `Arba.RenderInjective` | App.py:27-37 | The five outcomes have pairwise different texts, and HTTP errors with different codes do too. |
| `Corrientes.ConnectionFailureIsReported` | App.py:53-54 | A failed request does not propagate. It yields "Error de conexión". |
| `Corrientes.NonOkIsHttpError` | App.py:46-52 | Any status other than 200 yields exactly "Error HTTP " + str(status), whatever the body holds. |
| `Corrientes.OkReplyCases` | App.py:46-50 | A 200 reply is "Sin antecedentes" exactly when "No se registran datos" or "inexistente" occurs. Every other 200 body is "Contribuyente ACTIVO / Registrado". |
| `Corrientes.AllCapsBodyIsRegistered` | App.py:47-50 | The phrase test is case-sensitive. A 200 body in capitals, such as "NO SE REGISTRAN DATOS", is read as a registered taxpayer. |
| `Corrientes.NoRecordsAnywhere` | App.py:47-48 | Either phrase anywhere in a 200 body gives "Sin antecedentes registrados". |
| `Corrientes.RenderInjective` | App.py:46-54 | The four outcomes have pairwise different texts, and HTTP errors with different codes do too. |
| `Cordoba.ConsultIsConstant` | App.py:56-61 | Every CUIT gets "🔗 Verificación Manual Requerida". |
| `Dashboard.Submit` | App.py:123-184 | No result is shown until the form is submitted. A refused CUIT gives the warning. An accepted one gives the report (CUIT and the three portal texts) and three cards. The ARBA card is a success exactly when a 200 body has a no-debt marker, and an error exactly when the request failed or the status was not 200. The Corrientes card is a success exactly when a 200 body has a no-record phrase. The ARBA and Corrientes cards are the card functions applied to the report texts, so every other answer is a warning (ARBA) or info (Corrientes). The Córdoba card is always the fixed info card "Consulta Web Requerida" with the portal link. |
| `Dashboard.InvalidCuitIgnoresPortals` | App.py:128-184 | With a refused CUIT the page is the warning whatever the portals would answer, so no lookup result reaches the page. |
| `Dashboard.ArbaCardOfStatus` | App.py:151-156 | No debt is shown as a success. HTTP and connection errors contain "Error" and never "Sin Deuda", so they are shown as errors. Debt and non-standard answers fall through to a warning. |
| `Dashboard.ArbaCardMatchesOutcome` | App.py:151-157 | Against the portal's answer, the ARBA card is a success, an error or a warning (with the portal link) in exactly the cases above. It always shows the classifier's text. |
| `Dashboard.CorrientesCardOfStatus` | App.py:161-164 | Only "Sin antecedentes registrados" is shown as a success. Every other Corrientes outcome, errors included, is shown as info. |
| `Dashboard.CorrientesCardMatchesOutcome` | App.py:161-165 | Against the portal's answer, the Corrientes card is a success exactly when a 200 body has a no-record phrase. Otherwise it is info with the portal link. |

## Left out

- Network I/O: `requests.get`, the portal URLs, the browser `HEADERS`, `verify=False` and the timeouts are not modelled. A lookup is the `Response` it produced.
- Body decoding: `r.text` is taken as already-decoded text. How `requests` picks a character set is not modelled.
- Exceptions: `consultar_arba` catches `Exception`, while `consultar_corrientes` uses a bare `except`, which also catches interrupts. Both are modelled as one `ConnectionFailure` case.
- Streamlit plumbing is left out: the page config, title, spinner, columns, subheaders, the "Consulta Finalizada" banner and the download button. Of the markdown links, only whether a card shows one is kept (`Card.portalLink`). Their URLs are not.
- The text input's `max_chars=11` limit belongs to the UI. `Cuit.IsValid` takes any string and refuses the longer ones itself.
- PDF generation (`PDFReport`, `generar_pdf`) is rendering over FPDF with a timestamp from the clock. It is not part of this model.
- Text.Upper: models `str.upper()` over ASCII only. Python upper-cases by Unicode rules, so `'ß'.upper()` is `'SS'` and the dotless `'ı'` becomes `'I'`. A body such as "sın deuda" therefore counts as no-debt in Python but not in the model.
- Text.IsDigit: models `str.isdigit()` over ASCII only. Python also accepts other Unicode digits, such as `'²'` or Arabic-Indic digits, so such an 11-character input passes the source's check but not the model's.
- `App.py` has no BCRA lookup (its title reads "Sin BCRA"), so none is modelled.
