/**
 * The checkout dialog (components/pos/checkout-dialog.tsx): the buyer's
 * document and name, the customer lookup, and the decision of what, if
 * anything, is handed to `onConfirmSale`.
 */
module CheckoutDialog {
  import opened Wrappers

  /** What `handleSubmit` passes to `onConfirmSale`. */
  datatype ClientData = ClientData(dni: string, name: string)

  /** The result of `GET /customers/{dni}`: 200 with `nombre`, a non-2xx status, or a thrown error. */
  datatype LookupOutcome = Found(nombre: string) | NotFound | LookupError

  /** Document submitted when none was typed. */
  const DefaultDni: string := "00000000"

  /** Name submitted when none was typed or found: the walk-in customer. */
  const DefaultName: string := "PÚBLICO GENERAL"

  /** The name the dialog shows after a lookup: the returned `nombre`, or blank on any failure. */
  function NameAfterLookup(o: LookupOutcome): (name: string)
    ensures o.Found? ==> name == o.nombre
    ensures !o.Found? ==> name == ""
  {
    match o
    case Found(n) => n
    case _ => ""
  }

  /**
   * `handleSubmit`: with a blank name the cashier is asked to confirm an
   * anonymous sale (`confirmed` is that answer; it is only asked when the name
   * is blank); declining submits nothing. Blank fields are replaced by defaults.
   */
  function SubmitDecision(dni: string, name: string, confirmed: bool): (r: Option<ClientData>)
    ensures r.None? <==> name == "" && !confirmed
    ensures r.Some? ==> r.value.dni != "" && r.value.name != ""
    ensures r.Some? && dni != "" ==> r.value.dni == dni
    ensures r.Some? && dni == "" ==> r.value.dni == DefaultDni
    ensures r.Some? && name != "" ==> r.value.name == name
    ensures r.Some? && name == "" ==> r.value.name == DefaultName
  {
    if name == "" && !confirmed then None
    else Some(ClientData(if dni == "" then DefaultDni else dni, if name == "" then DefaultName else name))
  }

  /** The confirm button: `disabled={isProcessing}`, so a click while processing does nothing. */
  function PressConfirm(isProcessing: bool, dni: string, name: string, confirmed: bool): (r: Option<ClientData>)
    ensures isProcessing ==> r.None?
    ensures !isProcessing ==> r == SubmitDecision(dni, name, confirmed)
  {
    if isProcessing then None else SubmitDecision(dni, name, confirmed)
  }

  /**
   * A lookup that found a customer with a non-blank name lets the sale through
   * without asking, under that name; one that failed leaves the name blank, so
   * the sale goes through only as the walk-in customer and only if confirmed.
   */
  lemma LookupThenSubmit(dni: string, o: LookupOutcome, confirmed: bool)
    requires dni != ""
    ensures o.Found? && o.nombre != "" ==>
      SubmitDecision(dni, NameAfterLookup(o), confirmed) == Some(ClientData(dni, o.nombre))
    ensures !o.Found? ==>
      SubmitDecision(dni, NameAfterLookup(o), confirmed) == (if confirmed then Some(ClientData(dni, DefaultName)) else None)
  {
  }

  /** The dialog's own state: the two inputs and the lookup spinner. */
  class Dialog {
    var clientDni: string
    var clientName: string
    var isSearching: bool

    constructor ()
      ensures clientDni == "" && clientName == "" && !isSearching
    {
      clientDni := "";
      clientName := "";
      isSearching := false;
    }

    /** The document input's `onChange`. */
    method SetClientDni(s: string)
      modifies this
      ensures clientDni == s && clientName == old(clientName) && isSearching == old(isSearching)
    {
      clientDni := s;
    }

    /** The name input's `onChange`. */
    method SetClientName(s: string)
      modifies this
      ensures clientName == s && clientDni == old(clientDni) && isSearching == old(isSearching)
    {
      clientName := s;
    }

    /**
     * `handleSearchClient`: nothing happens with a blank document; otherwise the
     * lookup `outcome` (the network call, passed in) decides the new name, and the
     * spinner is off again at the end.
     */
    method HandleSearchClient(outcome: LookupOutcome) returns (searched: bool)
      modifies this
      ensures searched <==> old(clientDni) != ""
      ensures clientDni == old(clientDni)
      ensures clientName == (if searched then NameAfterLookup(outcome) else old(clientName))
      ensures isSearching == (if searched then false else old(isSearching))
    {
      if clientDni == "" {
        return false;
      }
      isSearching := true;
      match outcome {
        case Found(n) =>
          clientName := n;
        case NotFound =>
          clientName := "";
        case LookupError =>
          clientName := "";
      }
      isSearching := false;
      searched := true;
    }

    /** A click on the confirm button while the page reports `isProcessing`. */
    method HandleSubmit(isProcessing: bool, confirmed: bool) returns (submitted: Option<ClientData>)
      ensures submitted == PressConfirm(isProcessing, clientDni, clientName, confirmed)
      ensures submitted.Some? ==> submitted.value.name != "" && submitted.value.dni != ""
    {
      if isProcessing {
        return None;
      }
      if clientName == "" && !confirmed {
        return None;
      }
      var dni := if clientDni == "" then DefaultDni else clientDni;
      var name := if clientName == "" then DefaultName else clientName;
      submitted := Some(ClientData(dni, name));
    }
  }
}
