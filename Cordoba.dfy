/** `consultar_cordoba` (App.py): Rentas Córdoba needs an interactive web
    session, so the lookup is a stub that asks for a manual check. */
module Cordoba {

  const ManualCheckText := "\U{1F517} Verificaci\U{F3}n Manual Requerida"

  /** `consultar_cordoba`: the CUIT is not used and nothing is requested. */
  function Consult(cuit: string): string {
    ManualCheckText
  }

  /** Every CUIT gets the same manual-check text. */
  lemma ConsultIsConstant(a: string, b: string)
    ensures Consult(a) == Consult(b) == "\U{1F517} Verificaci\U{F3}n Manual Requerida"
  {
  }
}
