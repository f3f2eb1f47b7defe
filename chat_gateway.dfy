/** The support chat: one dialogue context per connected socket, a menu at
    step `welcome`, one step per kind of question, and a two-slot list of
    products to compare. The chat service that answers questions is an
    oracle (`Backend`): for each call it either answers or throws. Outgoing
    socket messages are appended to an outbox. */
module Chat {
  import opened Common

  // Dialogue steps.
  const WELCOME: string := "welcome"
  const AVAILABILITY: string := "product_availability"
  const COMPARISON: string := "product_comparison"
  const WARRANTY: string := "warranty_info"
  const PAY_METHODS: string := "pay_methods"

  // Fixed texts the gateway sends.
  const WELCOME_TEXT: string := "¡Hola! Soy tu asistente virtual. ¿En qué puedo ayudarte?"
  const TEST_MODE_TEXT: string := "¡Hola! Modo prueba activado. ¿En qué puedo ayudarte?"
  const SESSION_NOT_FOUND_TEXT: string := "Sesión no encontrada. Por favor recarga la página."
  const PROCESSING_ERROR_TEXT: string := "Lo siento, hubo un error procesando tu solicitud."
  const PAY_METHODS_ERROR_TEXT: string := "Lo siento, no pude obtener la información de métodos de pago en este momento."
  const GENERAL_TEXT: string := "Te recomiendo usar las opciones del menú para obtener información específica sobre productos."
  const MENU_TEXT: string := "Por favor selecciona una opción del menú:"
  const MORE_HELP_TEXT: string := "¿En qué más puedo ayudarte?"
  const AVAILABILITY_PROMPT: string := "¿Qué producto te interesa consultar? Por favor ingresa el nombre del producto."
  const COMPARISON_PROMPT: string := "Ingresa el nombre del primer producto que quieres comparar:"
  const COMPARISON_NEXT_PROMPT: string := "Ahora ingresa el segundo producto para comparar:"
  const WARRANTY_PROMPT: string := "¿De qué producto quieres consultar la garantía? Ingresa el nombre:"

  predicate KnownStep(step: string)
  {
    step == WELCOME || step == AVAILABILITY || step == COMPARISON || step == WARRANTY || step == PAY_METHODS
  }

  /** A client's dialogue state. The comparison list is absent until the
      comparison option is chosen; a message without text contributes `None`. */
  datatype ChatContext = ChatContext(currentStep: string, comparisonProducts: Option<seq<Option<string>>>)

  /** The context every connection starts with. */
  const INITIAL: ChatContext := ChatContext(WELCOME, None)

  /** The comparison list as the handler reads it: absent is empty. */
  function ComparisonList(ctx: ChatContext): (list: seq<Option<string>>)
    ensures ctx.comparisonProducts.None? ==> list == []
    ensures ctx.comparisonProducts.Some? ==> list == ctx.comparisonProducts.value
  {
    ctx.comparisonProducts.GetOr([])
  }

  /** The dialogue invariant: the comparison list never holds more than two
      products, and it is empty outside the comparison step. */
  predicate WellFormed(ctx: ChatContext)
  {
    && |ComparisonList(ctx)| <= 2
    && (ctx.currentStep != COMPARISON ==> ComparisonList(ctx) == [])
  }

  /** A chat service call: the text of its answer, or an exception. */
  datatype ServiceResult = Answered(message: string) | Threw

  /** The chat service's answers for one incoming message. */
  datatype Backend = Backend(
    availability: (Option<string>, string) -> ServiceResult,
    compare: seq<Option<string>> -> ServiceResult,
    warranty: Option<string> -> ServiceResult,
    paymentMethods: ServiceResult)

  /** A `customer_message` payload. */
  datatype MessageData = MessageData(message: Option<string>, option: Option<int>)

  /** One `bot_message` event: its `type` and its `message`. */
  datatype Emitted = Emitted(kind: string, text: string)

  datatype BotMessage = BotMessage(clientId: string, content: Emitted)

  /** The outcome of a handler: the context after it, what it sent, and
      whether it ended in an exception. */
  datatype Turn = Turn(context: ChatContext, emitted: seq<Emitted>, threw: bool)

  /** How the JWT check at connection went; an accepted token carries the
      subject (`sub`) of its payload. */
  datatype AuthOutcome = NoToken | TokenAccepted(subject: Option<string>) | TokenRejected

  /** `handleWelcomeResponse`: options 0 to 3 open a step; option 3 moves to
      `pay_methods` before the payment methods are fetched, so the step
      change survives a failure of that call; any other option repeats the
      menu. */
  function WelcomeTurn(ctx: ChatContext, option: Option<int>, backend: Backend): (t: Turn)
    ensures option == Some(0) ==>
      && t.context == ctx.(currentStep := AVAILABILITY) && !t.threw
      && t.emitted == [Emitted("product_availability_prompt", AVAILABILITY_PROMPT)]
    ensures option == Some(1) ==>
      && t.context == ChatContext(COMPARISON, Some([])) && !t.threw
      && t.emitted == [Emitted("product_comparison_prompt", COMPARISON_PROMPT)]
    ensures option == Some(2) ==>
      && t.context == ctx.(currentStep := WARRANTY) && !t.threw
      && t.emitted == [Emitted("warranty_prompt", WARRANTY_PROMPT)]
    ensures option == Some(3) ==>
      t.context == ctx.(currentStep := PAY_METHODS) && (t.threw <==> backend.paymentMethods.Threw?)
    ensures option == Some(3) && backend.paymentMethods.Answered? ==>
      t.emitted == [Emitted("payment_methods", backend.paymentMethods.message)]
    ensures !(option.Some? && 0 <= option.value <= 3) ==>
      && t.context == ctx && !t.threw
      && t.emitted == [Emitted("options", MENU_TEXT)]
    ensures |t.emitted| == if t.threw then 0 else 1
  {
    if option == Some(0) then
      Turn(ctx.(currentStep := AVAILABILITY), [Emitted("product_availability_prompt", AVAILABILITY_PROMPT)], false)
    else if option == Some(1) then
      Turn(ctx.(currentStep := COMPARISON, comparisonProducts := Some([])),
           [Emitted("product_comparison_prompt", COMPARISON_PROMPT)], false)
    else if option == Some(2) then
      Turn(ctx.(currentStep := WARRANTY), [Emitted("warranty_prompt", WARRANTY_PROMPT)], false)
    else if option == Some(3) then
      match backend.paymentMethods
      case Answered(m) => Turn(ctx.(currentStep := PAY_METHODS), [Emitted("payment_methods", m)], false)
      case Threw => Turn(ctx.(currentStep := PAY_METHODS), [], true)
    else
      Turn(ctx, [Emitted("options", MENU_TEXT)], false)
  }

  /** `handleProductAvailability`: the answer is sent and the menu offered
      again; when the service throws, nothing changes. */
  function AvailabilityTurn(ctx: ChatContext, query: Option<string>, customerId: string, backend: Backend): (t: Turn)
    ensures backend.availability(query, customerId).Answered? ==>
      t.context == ctx.(currentStep := WELCOME) && !t.threw
      && t.emitted == [Emitted("product_availability", backend.availability(query, customerId).message),
                       Emitted("options", MORE_HELP_TEXT)]
    ensures backend.availability(query, customerId).Threw? ==> t == Turn(ctx, [], true)
  {
    match backend.availability(query, customerId)
    case Answered(m) =>
      Turn(ctx.(currentStep := WELCOME), [Emitted("product_availability", m), Emitted("options", MORE_HELP_TEXT)], false)
    case Threw => Turn(ctx, [], true)
  }

  /** `handleProductComparison`: a product is appended while the list holds
      fewer than two; after the first the handler waits for the second; with
      two it compares them and, when the service answers, resets the list and
      returns to the menu. A throwing comparison keeps the two products, so
      the next message compares them again. */
  function ComparisonTurn(ctx: ChatContext, query: Option<string>, backend: Backend): (t: Turn)
    ensures var list := ComparisonList(ctx);
      |list| == 0 ==>
        t == Turn(ctx.(comparisonProducts := Some([query])), [Emitted("product_comparison_next", COMPARISON_NEXT_PROMPT)], false)
    ensures var list := ComparisonList(ctx);
      var full := if |list| < 2 then list + [query] else list;
      |list| >= 1 ==>
        match backend.compare(full)
        case Answered(m) =>
          t == Turn(ctx.(currentStep := WELCOME, comparisonProducts := Some([])), [Emitted("product_comparison", m)], false)
        case Threw => t == Turn(ctx.(comparisonProducts := Some(full)), [], true)
    ensures |ComparisonList(ctx)| <= 2 ==> |ComparisonList(t.context)| <= 2
  {
    var list := ComparisonList(ctx);
    var pushed := if |list| < 2 then list + [query] else list;
    if |pushed| == 1 then
      assert list == [] && pushed == [query];
      Turn(ctx.(comparisonProducts := Some(pushed)), [Emitted("product_comparison_next", COMPARISON_NEXT_PROMPT)], false)
    else
      match backend.compare(pushed)
      case Answered(m) =>
        Turn(ctx.(currentStep := WELCOME, comparisonProducts := Some([])), [Emitted("product_comparison", m)], false)
      case Threw => Turn(ctx.(comparisonProducts := Some(pushed)), [], true)
  }

  /** `handleWarrantyInfo`: the answer is sent and the step returns to the
      menu; when the service throws, nothing changes. */
  function WarrantyTurn(ctx: ChatContext, query: Option<string>, backend: Backend): (t: Turn)
    ensures backend.warranty(query).Answered? ==>
      t == Turn(ctx.(currentStep := WELCOME), [Emitted("warranty_info", backend.warranty(query).message)], false)
    ensures backend.warranty(query).Threw? ==> t == Turn(ctx, [], true)
  {
    match backend.warranty(query)
    case Answered(m) => Turn(ctx.(currentStep := WELCOME), [Emitted("warranty_info", m)], false)
    case Threw => Turn(ctx, [], true)
  }

  /** `handlepayMethos`: catches its own failure, so it never throws; on
      failure it apologises and leaves the step as it was. */
  function PayMethodsTurn(ctx: ChatContext, backend: Backend): (t: Turn)
    ensures !t.threw
    ensures backend.paymentMethods.Answered? ==>
      && t.context == ctx.(currentStep := WELCOME)
      && t.emitted == [Emitted("payment_methods", backend.paymentMethods.message), Emitted("options", MORE_HELP_TEXT)]
    ensures backend.paymentMethods.Threw? ==>
      && t.context == ctx
      && t.emitted == [Emitted("error", PAY_METHODS_ERROR_TEXT)]
  {
    match backend.paymentMethods
    case Answered(m) =>
      Turn(ctx.(currentStep := WELCOME), [Emitted("payment_methods", m), Emitted("options", MORE_HELP_TEXT)], false)
    case Threw => Turn(ctx, [Emitted("error", PAY_METHODS_ERROR_TEXT)], false)
  }

  /** `handleGeneralInquiry`: for a step no handler knows; back to the menu. */
  function GeneralTurn(ctx: ChatContext): (t: Turn)
    ensures t.context.currentStep == WELCOME && t.context.comparisonProducts == ctx.comparisonProducts
    ensures !t.threw && t.emitted == [Emitted("general_response", GENERAL_TEXT)]
  {
    Turn(ctx.(currentStep := WELCOME), [Emitted("general_response", GENERAL_TEXT)], false)
  }

  /** The id the availability service is told about: the token's subject
      when truthy, "guest" otherwise. */
  function CustomerId(subject: Option<string>): (id: string)
    ensures IsTruthyString(subject) ==> id == subject.value
    ensures !IsTruthyString(subject) ==> id == "guest"
  {
    if IsTruthyString(subject) then subject.value else "guest"
  }

  /** The handler the current step selects. */
  function Dispatch(ctx: ChatContext, data: MessageData, subject: Option<string>, backend: Backend): (t: Turn)
    ensures ctx.currentStep == WELCOME ==> t == WelcomeTurn(ctx, data.option, backend)
    ensures ctx.currentStep == AVAILABILITY ==> t == AvailabilityTurn(ctx, data.message, CustomerId(subject), backend)
    ensures ctx.currentStep == COMPARISON ==> t == ComparisonTurn(ctx, data.message, backend)
    ensures ctx.currentStep == WARRANTY ==> t == WarrantyTurn(ctx, data.message, backend)
    ensures ctx.currentStep == PAY_METHODS ==> t == PayMethodsTurn(ctx, backend)
    ensures !KnownStep(ctx.currentStep) ==> t == GeneralTurn(ctx)
  {
    if ctx.currentStep == WELCOME then WelcomeTurn(ctx, data.option, backend)
    else if ctx.currentStep == AVAILABILITY then AvailabilityTurn(ctx, data.message, CustomerId(subject), backend)
    else if ctx.currentStep == COMPARISON then ComparisonTurn(ctx, data.message, backend)
    else if ctx.currentStep == WARRANTY then WarrantyTurn(ctx, data.message, backend)
    else if ctx.currentStep == PAY_METHODS then PayMethodsTurn(ctx, backend)
    else GeneralTurn(ctx)
  }

  /** `handleCustomerMessage` for a client that has a context: the selected
      handler's turn, with the generic apology appended when it threw. The
      context keeps whatever the handler changed before the exception. */
  function Respond(ctx: ChatContext, data: MessageData, subject: Option<string>, backend: Backend)
    : (r: (ChatContext, seq<Emitted>))
    ensures var t := Dispatch(ctx, data, subject, backend);
      r == (t.context, if t.threw then t.emitted + [Emitted("error", PROCESSING_ERROR_TEXT)] else t.emitted)
    ensures WellFormed(ctx) ==> WellFormed(r.0)
    ensures KnownStep(r.0.currentStep)
  {
    var t := Dispatch(ctx, data, subject, backend);
    (t.context, if t.threw then t.emitted + [Emitted("error", PROCESSING_ERROR_TEXT)] else t.emitted)
  }

  /** Choosing "compare" and then naming two products compares exactly those
      two, in order, and returns to the menu with an empty list when the
      service answers. */
  lemma CompareTwoProducts(ctx: ChatContext, a: Option<string>, b: Option<string>, subject: Option<string>,
                           b1: Backend, b2: Backend, b3: Backend)
    requires ctx.currentStep == WELCOME
    requires b3.compare([a, b]).Answered?
    ensures
      var s1 := Respond(ctx, MessageData(None, Some(1)), subject, b1).0;
      var s2 := Respond(s1, MessageData(a, None), subject, b2).0;
      var s3 := Respond(s2, MessageData(b, None), subject, b3);
      && s1 == ChatContext(COMPARISON, Some([]))
      && s2 == ChatContext(COMPARISON, Some([a]))
      && s3.0 == ChatContext(WELCOME, Some([]))
      && s3.1 == [Emitted("product_comparison", b3.compare([a, b]).message)]
  {
    var s1 := Respond(ctx, MessageData(None, Some(1)), subject, b1).0;
    assert s1 == ChatContext(COMPARISON, Some([]));
    var s2 := Respond(s1, MessageData(a, None), subject, b2).0;
    assert s2 == ChatContext(COMPARISON, Some([a]));
    assert ComparisonList(s2) + [b] == [a, b];
  }

  /** A comparison that keeps failing neither grows the list past two nor
      leaves the comparison step. */
  lemma FailedComparisonRetries(ctx: ChatContext, q: Option<string>, subject: Option<string>, backend: Backend)
    requires ctx.currentStep == COMPARISON && |ComparisonList(ctx)| == 2
    requires backend.compare(ComparisonList(ctx)).Threw?
    ensures Respond(ctx, MessageData(q, None), subject, backend).0 == ctx.(comparisonProducts := Some(ComparisonList(ctx)))
    ensures Respond(ctx, MessageData(q, None), subject, backend).1 == [Emitted("error", PROCESSING_ERROR_TEXT)]
  {
  }

  /** The messages a handler sent, addressed to one client. */
  function Addressed(clientId: string, emitted: seq<Emitted>): (out: seq<BotMessage>)
    ensures |out| == |emitted|
    ensures forall i :: 0 <= i < |out| ==> out[i] == BotMessage(clientId, emitted[i])
  {
    seq(|emitted|, i requires 0 <= i < |emitted| => BotMessage(clientId, emitted[i]))
  }

  /** The gateway: the map of contexts by socket id and everything sent so far. */
  class ChatGateway {
    var contexts: map<string, ChatContext>
    /** The subject of the token each socket connected with (`client.data.user`). */
    var subjects: map<string, Option<string>>
    var outbox: seq<BotMessage>

    ghost predicate Valid()
      reads this
    {
      forall id :: id in contexts ==> WellFormed(contexts[id])
    }

    constructor ()
      ensures Valid() && contexts == map[] && subjects == map[] && outbox == []
    {
      contexts := map[];
      subjects := map[];
      outbox := [];
    }

    /** The subject the socket's token named, if it connected with a valid one. */
    function Subject(clientId: string): (subject: Option<string>)
      reads this
      ensures clientId in subjects ==> subject == subjects[clientId]
      ensures clientId !in subjects ==> subject.None?
    {
      if clientId in subjects then subjects[clientId] else None
    }

    /** `handleConnection`: with or without a token the client starts at
        the menu; an accepted token's subject is kept for the socket, and a
        rejected token only changes the greeting. */
    method HandleConnection(clientId: string, auth: AuthOutcome)
      requires Valid()
      modifies this
      ensures Valid()
      ensures contexts == old(contexts)[clientId := INITIAL]
      ensures subjects == old(subjects)[clientId := if auth.TokenAccepted? then auth.subject else None]
      ensures outbox == old(outbox) +
        [BotMessage(clientId, Emitted("welcome", if auth == TokenRejected then TEST_MODE_TEXT else WELCOME_TEXT))]
    {
      if auth.TokenAccepted? {
        subjects := subjects[clientId := auth.subject];
      } else {
        subjects := subjects[clientId := None];
      }
      if auth == TokenRejected {
        contexts := contexts[clientId := ChatContext(WELCOME, None)];
        outbox := outbox + [BotMessage(clientId, Emitted("welcome", TEST_MODE_TEXT))];
      } else {
        contexts := contexts[clientId := ChatContext(WELCOME, None)];
        outbox := outbox + [BotMessage(clientId, Emitted("welcome", WELCOME_TEXT))];
      }
    }

    /** `handleDisconnect`: forgets this client's context and no other. */
    method HandleDisconnect(clientId: string)
      requires Valid()
      modifies this
      ensures Valid()
      ensures contexts == old(contexts) - {clientId}
      ensures subjects == old(subjects) - {clientId}
      ensures outbox == old(outbox)
    {
      contexts := contexts - {clientId};
      subjects := subjects - {clientId};
    }

    /** `handleCustomerMessage`: a client without a context gets an error and
        still has none; otherwise the step's handler runs on its context, and
        an exception from it is answered with an apology. The customer is
        the subject of the token the socket connected with. */
    method HandleCustomerMessage(clientId: string, data: MessageData, backend: Backend)
      requires Valid()
      modifies this`contexts, this`outbox
      ensures Valid()
      ensures clientId !in old(contexts) ==>
        && contexts == old(contexts)
        && outbox == old(outbox) + [BotMessage(clientId, Emitted("error", SESSION_NOT_FOUND_TEXT))]
      ensures clientId in old(contexts) ==>
        var r := Respond(old(contexts)[clientId], data, Subject(clientId), backend);
        && contexts == old(contexts)[clientId := r.0]
        && outbox == old(outbox) + Addressed(clientId, r.1)
    {
      if clientId !in contexts {
        outbox := outbox + [BotMessage(clientId, Emitted("error", SESSION_NOT_FOUND_TEXT))];
        return;
      }
      var subject := Subject(clientId);
      var customerId := if IsTruthyString(subject) then subject.value else "guest";
      var step := contexts[clientId].currentStep;
      var threw: bool;
      if step == WELCOME {
        threw := HandleWelcomeResponse(clientId, data.option, backend);
      } else if step == AVAILABILITY {
        threw := HandleProductAvailability(clientId, data.message, customerId, backend);
      } else if step == COMPARISON {
        threw := HandleProductComparison(clientId, data.message, backend);
      } else if step == WARRANTY {
        threw := HandleWarrantyInfo(clientId, data.message, backend);
      } else if step == PAY_METHODS {
        threw := HandlePayMethods(clientId, backend);
      } else {
        threw := HandleGeneralInquiry(clientId);
      }
      if threw {
        outbox := outbox + [BotMessage(clientId, Emitted("error", PROCESSING_ERROR_TEXT))];
      }
    }

    method HandleWelcomeResponse(clientId: string, option: Option<int>, backend: Backend) returns (threw: bool)
      requires clientId in contexts
      modifies this`contexts, this`outbox
      ensures var t := WelcomeTurn(old(contexts)[clientId], option, backend);
        && contexts == old(contexts)[clientId := t.context]
        && outbox == old(outbox) + Addressed(clientId, t.emitted)
        && threw == t.threw
    {
      var ctx := contexts[clientId];
      threw := false;
      if option == Some(0) {
        contexts := contexts[clientId := ctx.(currentStep := AVAILABILITY)];
        outbox := outbox + [BotMessage(clientId, Emitted("product_availability_prompt", AVAILABILITY_PROMPT))];
      } else if option == Some(1) {
        contexts := contexts[clientId := ctx.(currentStep := COMPARISON, comparisonProducts := Some([]))];
        outbox := outbox + [BotMessage(clientId, Emitted("product_comparison_prompt", COMPARISON_PROMPT))];
      } else if option == Some(2) {
        contexts := contexts[clientId := ctx.(currentStep := WARRANTY)];
        outbox := outbox + [BotMessage(clientId, Emitted("warranty_prompt", WARRANTY_PROMPT))];
      } else if option == Some(3) {
        contexts := contexts[clientId := ctx.(currentStep := PAY_METHODS)];
        var info := backend.paymentMethods;
        if info.Threw? {
          return true;
        }
        outbox := outbox + [BotMessage(clientId, Emitted("payment_methods", info.message))];
      } else {
        outbox := outbox + [BotMessage(clientId, Emitted("options", MENU_TEXT))];
      }
    }

    method HandleProductAvailability(clientId: string, query: Option<string>, customerId: string, backend: Backend)
      returns (threw: bool)
      requires clientId in contexts
      modifies this`contexts, this`outbox
      ensures var t := AvailabilityTurn(old(contexts)[clientId], query, customerId, backend);
        && contexts == old(contexts)[clientId := t.context]
        && outbox == old(outbox) + Addressed(clientId, t.emitted)
        && threw == t.threw
    {
      var result := backend.availability(query, customerId);
      if result.Threw? {
        return true;
      }
      outbox := outbox + [BotMessage(clientId, Emitted("product_availability", result.message))];
      contexts := contexts[clientId := contexts[clientId].(currentStep := WELCOME)];
      outbox := outbox + [BotMessage(clientId, Emitted("options", MORE_HELP_TEXT))];
      threw := false;
    }

    method HandleProductComparison(clientId: string, query: Option<string>, backend: Backend) returns (threw: bool)
      requires clientId in contexts
      modifies this`contexts, this`outbox
      ensures var t := ComparisonTurn(old(contexts)[clientId], query, backend);
        && contexts == old(contexts)[clientId := t.context]
        && outbox == old(outbox) + Addressed(clientId, t.emitted)
        && threw == t.threw
    {
      var ctx := contexts[clientId];
      if ctx.comparisonProducts.None? {
        ctx := ctx.(comparisonProducts := Some([]));
      }
      var list := ctx.comparisonProducts.value;
      if |list| < 2 {
        list := list + [query];
        ctx := ctx.(comparisonProducts := Some(list));
        contexts := contexts[clientId := ctx];
        if |list| == 1 {
          outbox := outbox + [BotMessage(clientId, Emitted("product_comparison_next", COMPARISON_NEXT_PROMPT))];
          return false;
        }
      } else {
        contexts := contexts[clientId := ctx];
      }
      var result := backend.compare(list);
      if result.Threw? {
        return true;
      }
      outbox := outbox + [BotMessage(clientId, Emitted("product_comparison", result.message))];
      contexts := contexts[clientId := ctx.(currentStep := WELCOME, comparisonProducts := Some([]))];
      threw := false;
    }

    method HandleWarrantyInfo(clientId: string, query: Option<string>, backend: Backend) returns (threw: bool)
      requires clientId in contexts
      modifies this`contexts, this`outbox
      ensures var t := WarrantyTurn(old(contexts)[clientId], query, backend);
        && contexts == old(contexts)[clientId := t.context]
        && outbox == old(outbox) + Addressed(clientId, t.emitted)
        && threw == t.threw
    {
      var info := backend.warranty(query);
      if info.Threw? {
        return true;
      }
      outbox := outbox + [BotMessage(clientId, Emitted("warranty_info", info.message))];
      contexts := contexts[clientId := contexts[clientId].(currentStep := WELCOME)];
      threw := false;
    }

    method HandlePayMethods(clientId: string, backend: Backend) returns (threw: bool)
      requires clientId in contexts
      modifies this`contexts, this`outbox
      ensures var t := PayMethodsTurn(old(contexts)[clientId], backend);
        && contexts == old(contexts)[clientId := t.context]
        && outbox == old(outbox) + Addressed(clientId, t.emitted)
        && threw == t.threw
    {
      threw := false;
      var info := backend.paymentMethods;
      if info.Threw? {
        outbox := outbox + [BotMessage(clientId, Emitted("error", PAY_METHODS_ERROR_TEXT))];
        return;
      }
      outbox := outbox + [BotMessage(clientId, Emitted("payment_methods", info.message))];
      contexts := contexts[clientId := contexts[clientId].(currentStep := WELCOME)];
      outbox := outbox + [BotMessage(clientId, Emitted("options", MORE_HELP_TEXT))];
    }

    method HandleGeneralInquiry(clientId: string) returns (threw: bool)
      requires clientId in contexts
      modifies this`contexts, this`outbox
      ensures var t := GeneralTurn(old(contexts)[clientId]);
        && contexts == old(contexts)[clientId := t.context]
        && outbox == old(outbox) + Addressed(clientId, t.emitted)
        && threw == t.threw
    {
      outbox := outbox + [BotMessage(clientId, Emitted("general_response", GENERAL_TEXT))];
      contexts := contexts[clientId := contexts[clientId].(currentStep := WELCOME)];
      threw := false;
    }
  }
}
