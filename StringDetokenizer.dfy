/**
 * The game's string detokenizer (cISCStringDetokenizer), as far as the
 * building-query variables see it: a callback for unknown `#token#` names is
 * added before a query dialog is shown and removed after it. The detokenizer
 * itself is host code; here it records the calls it receives, in order.
 */
module StringDetokenizer {
  import opened Wrappers
  import opened HostData

  /** The two unknown-token callbacks of the plug-in. */
  datatype TokenCallbackId = ProviderUnknownTokenCallback | DirectorUnknownTokenCallback

  /**
   * The context pointer handed over with a callback: the provider's
   * file-static context, or a context local to the director's calling method
   * (a new stack object on every call).
   */
  datatype ContextArgument = StaticTokenContext | StackTokenContext(context: DirectorTokenContext)

  /** The older director's context: whether it holds a COM pointer, the occupant and the city. */
  datatype DirectorTokenContext = DirectorTokenContext(hasCOM: bool, occupant: Option<Occupant>, city: Option<City>)

  /** One call of AddUnknownTokenReplacementMethod(callback, context, add). */
  datatype Registration = Registration(callback: TokenCallbackId, context: ContextArgument, add: bool)

  class StringDetokenizer {
    var calls: seq<Registration>

    constructor ()
      ensures calls == []
    {
      calls := [];
    }

    method AddUnknownTokenReplacementMethod(callback: TokenCallbackId, context: ContextArgument, add: bool)
      modifies this
      ensures calls == old(calls) + [Registration(callback, context, add)]
    {
      calls := calls + [Registration(callback, context, add)];
    }
  }
}
