/**
 * The hosted-iframe payment channel (pretix_eth/web3modal/src/core.js): the
 * single `message` listener slot and its dispatcher, the payment start that
 * opens the iframe, and the hand-off of a signed transaction to the
 * submission buffer.
 *
 * The page is an `IframeHost`: the slot, the window's message listeners this
 * script registered, the iframe containers in the document, what the error
 * area has been told, and the records handed to the submission buffer. The
 * server's answer, the URL parser's origin and the buffer's outcome are
 * parameters.
 */
module IframeChannel {
  import opened Wrappers
  import opened Js
  import ProofRecord
  import IframeUrl

  /** A `message` event: the sender's origin and the posted data. */
  datatype MessageEvent = MessageEvent(origin: string, data: JsValue)

  /** What the listener does with an event. */
  datatype Reaction =
    | Ignored                          // sent from another origin
    | Signed(details: map<string, JsValue>)  // calls onTransactionSigned(event.data)
    | Close                            // calls onCloseIframe()
    | Checkout                         // no-op
    | UnexpectedKind(kind: JsValue)    // logged only
    | UnexpectedEvent                  // data null or not an object; logged only

  const TransactionSignedKind := "TransactionSigned"
  const CloseIframeKind := "CloseIframe"
  const CheckoutKind := "Checkout"

  /** The listener's decision for an event, with `tcOrigin` the origin it was
      created for. */
  function Dispatch(tcOrigin: string, e: MessageEvent): Reaction {
    if e.origin != tcOrigin then Ignored
    else if !e.data.Obj? then UnexpectedEvent
    else
      var kind := Lookup(e.data.props, "kind");
      if StrictEquals(kind, Str(TransactionSignedKind)) then Signed(e.data.props)
      else if StrictEquals(kind, Str(CloseIframeKind)) then Close
      else if StrictEquals(kind, Str(CheckoutKind)) then Checkout
      else UnexpectedKind(kind)
  }

  /** A callback the listener can call. */
  datatype Callback = OnTransactionSigned(details: map<string, JsValue>) | OnCloseIframe

  /** The callbacks a reaction calls, in order. */
  function Calls(r: Reaction): seq<Callback> {
    match r
    case Signed(d) => [OnTransactionSigned(d)]
    case Close => [OnCloseIframe]
    case _ => []
  }

  /** An event from any origin other than the iframe's calls nothing. */
  lemma ForeignOriginCallsNothing(tcOrigin: string, e: MessageEvent)
    requires e.origin != tcOrigin
    ensures Dispatch(tcOrigin, e) == Ignored && Calls(Dispatch(tcOrigin, e)) == []
  {
  }

  /** A trusted event with object data calls `onTransactionSigned` exactly
      once, with the data, when its kind is `TransactionSigned`;
      `onCloseIframe` exactly once when it is `CloseIframe`; and nothing for
      `Checkout` or any other kind. */
  lemma TrustedObjectDispatch(tcOrigin: string, e: MessageEvent)
    requires e.origin == tcOrigin && e.data.Obj?
    ensures var kind := Lookup(e.data.props, "kind");
      && (kind == Str(TransactionSignedKind) <==> Calls(Dispatch(tcOrigin, e)) == [OnTransactionSigned(e.data.props)])
      && (kind == Str(CloseIframeKind) <==> Calls(Dispatch(tcOrigin, e)) == [OnCloseIframe])
      && (kind != Str(TransactionSignedKind) && kind != Str(CloseIframeKind) <==> Calls(Dispatch(tcOrigin, e)) == [])
  {
  }

  /** A trusted event whose data is null, undefined or a primitive calls
      nothing. */
  lemma NonObjectDataCallsNothing(tcOrigin: string, e: MessageEvent)
    requires !e.data.Obj?
    ensures Calls(Dispatch(tcOrigin, e)) == []
  {
  }

  /** A message listener the script created: its creation number (each call
      makes a new closure) and the origin it trusts. */
  datatype Handler = Handler(id: nat, origin: string)

  /** The listener list with `h` unregistered. */
  function Without(listeners: seq<Handler>, h: Handler): (r: seq<Handler>)
    ensures forall x :: x in r <==> x in listeners && x != h
  {
    if listeners == [] then []
    else (if listeners[0] == h then [] else [listeners[0]]) + Without(listeners[1..], h)
  }

  /** What the page's error area is told. */
  datatype Notice =
    | ResetError
    | AlreadyPaid
    | PayFlowError(error: Failure)
    | DetailsLost(record: ProofRecord.Record, error: Failure)

  /** The path and configuration of the payment link the script uses,
      appended to the domain the order names. */
  const PayLinkPath := "/#/pay?c=CAESFKwNd1PqKBZQG1f66a1mVzkBg4SzIgICASoCARA6DEVUSCBXRVRIIERBSUowAQoBAAoEAgEGAQoIBAUDCgUDBAMFAgoHBwcHBwcHCgUJAQQECggBBAUHCgMEBAQDWinwn6eQIEtlZXAgdGhpcyBwb3AtdXAgb3BlbiBkdXJpbmcgc2lnbmluZw"

  /** The base URL of the iframe for order details `pd`: the domain the
      order names, followed by the payment link `payLink`. */
  function BaseUrl(pd: JsValue, payLink: string): string
    requires !Nullish(pd)
  {
    "https://" + ToString(Prop(pd, "3cities_interface_domain")) + payLink
  }

  /** The parameters the iframe URL carries for order details `pd` and
      payment-page options `opts`. */
  function UrlParams(pd: JsValue, opts: IframeUrl.IframeOptions): seq<IframeUrl.Param>
    requires !Nullish(pd)
  {
    IframeUrl.Params(
      ToString(Prop(pd, "recipient_address")), ToString(Prop(pd, "amount")),
      ToString(Prop(pd, "primary_currency")), ToString(Prop(pd, "usd_per_eth")), opts)
  }

  /** How a payment start ends. */
  datatype Start = AlreadyPaidStop | Failed(error: Failure) | Opened(origin: string, url: string)

  /** The decision logic of a payment start: the order details (or the throw
      fetching them), the origin the URL parser gives a base URL, the
      payment-page options and the payment link decide how it ends. */
  function StartOf(fetched: Completion<JsValue>, originOf: string -> Completion<string>, opts: IframeUrl.IframeOptions,
                   payLink: string): Start {
    match fetched
    case Throw(e) => Failed(e)
    case Normal(pd) =>
      match Get(pd, "is_signature_submitted")
      case Throw(e) => Failed(e)
      case Normal(paid) =>
        if StrictEquals(paid, Bool(true)) then AlreadyPaidStop
        else
          match originOf(BaseUrl(pd, payLink))
          case Throw(e) => Failed(e)
          case Normal(origin) => Opened(origin, IframeUrl.Url(BaseUrl(pd, payLink), UrlParams(pd, opts)))
  }

  /** What a payment start shows after resetting the error area. */
  function StartNotices(st: Start): seq<Notice> {
    match st
    case AlreadyPaidStop => [AlreadyPaid]
    case Failed(e) => [PayFlowError(e)]
    case Opened(_, _) => []
  }

  /** An order already paid for stops the start before any iframe or
      listener exists; any other readable order opens the iframe unless
      the base URL has no origin. */
  lemma StartStopsWhenPaid(fetched: Completion<JsValue>, originOf: string -> Completion<string>,
                           opts: IframeUrl.IframeOptions, payLink: string)
    requires fetched.Normal? && fetched.value.Obj?
    ensures var paid := Lookup(fetched.value.props, "is_signature_submitted");
      && (StartOf(fetched, originOf, opts, payLink) == AlreadyPaidStop <==> paid == Bool(true))
      && (paid != Bool(true) && originOf(BaseUrl(fetched.value, payLink)).Normal? ==>
            StartOf(fetched, originOf, opts, payLink).Opened?)
  {
  }

  /** Missing order details (undefined or null) make the start fail with a
      TypeError. */
  lemma StartFailsWithoutDetails(fetched: Completion<JsValue>, originOf: string -> Completion<string>,
                                 opts: IframeUrl.IframeOptions, payLink: string)
    requires fetched.Normal? && Nullish(fetched.value)
    ensures StartOf(fetched, originOf, opts, payLink) == Failed(TypeError)
  {
  }

  /** An opened iframe trusts the origin of its own base URL, and its URL is
      that base followed by the order's parameters, which parse back out of
      it. */
  lemma OpenedIframe(fetched: Completion<JsValue>, originOf: string -> Completion<string>,
                     opts: IframeUrl.IframeOptions, payLink: string)
    requires StartOf(fetched, originOf, opts, payLink).Opened?
    ensures var st, pd := StartOf(fetched, originOf, opts, payLink), fetched.value;
      && fetched.Normal? && !Nullish(pd)
      && originOf(BaseUrl(pd, payLink)) == Normal(st.origin)
      && |st.url| >= |BaseUrl(pd, payLink)| && st.url[..|BaseUrl(pd, payLink)|] == BaseUrl(pd, payLink)
      && IframeUrl.ParseQuery(st.url[|BaseUrl(pd, payLink)|..]) == Some(UrlParams(pd, opts))
  {
    var pd := fetched.value;
    IframeUrl.ParamsRoundTrip(BaseUrl(pd, payLink),
      ToString(Prop(pd, "recipient_address")), ToString(Prop(pd, "amount")),
      ToString(Prop(pd, "primary_currency")), ToString(Prop(pd, "usd_per_eth")), opts);
  }

  class IframeHost {
    /** The payment link this page opens. */
    const payLink: string
    /** The payment-page options; they name this window's origin. */
    const options: IframeUrl.IframeOptions
    /** The singleton handler variable. */
    var slot: Option<Handler>
    /** The window's `message` listeners this script registered, in order. */
    var listeners: seq<Handler>
    /** How many handler closures have been created. */
    var handlersCreated: nat
    /** The iframe containers in the document, in document order, each with
        the URL of its iframe. */
    var containers: seq<string>
    /** Everything the error area has been told, in order. */
    var notices: seq<Notice>
    /** The records handed to the submission buffer, in order. */
    var submissions: seq<ProofRecord.Record>
    /** The order details last fetched. */
    var paymentDetails: JsValue

    /** The slot's handler is the one registered listener, and every handler
        is one this script created. */
    predicate Valid()
      reads this
    {
      && listeners == (if slot.Some? then [slot.value] else [])
      && (slot.Some? ==> slot.value.id < handlersCreated)
    }

    /** A page served from `locationOrigin`. */
    constructor (locationOrigin: string)
      ensures Valid() && payLink == PayLinkPath && options == IframeUrl.ScriptOptions(locationOrigin)
      ensures slot == None && listeners == [] && containers == [] && notices == [] && submissions == []
    {
      payLink := PayLinkPath;
      options := IframeUrl.ScriptOptions(locationOrigin);
      slot := None;
      listeners := [];
      handlersCreated := 0;
      containers := [];
      notices := [];
      submissions := [];
      paymentDetails := Undefined;
    }

    /** Create-or-update of the singleton handler: unregisters the previous
        handler, if any, then creates and registers a new one trusting
        `tcOrigin`. Afterwards exactly one handler, the new one, is
        registered. */
    method InstallHandler(tcOrigin: string)
      requires Valid()
      modifies this
      ensures Valid()
      ensures slot == Some(Handler(old(handlersCreated), tcOrigin))
      ensures listeners == [slot.value]
      ensures old(slot).Some? ==> old(slot).value !in listeners
      ensures handlersCreated == old(handlersCreated) + 1
      ensures containers == old(containers) && notices == old(notices)
      ensures submissions == old(submissions) && paymentDetails == old(paymentDetails)
    {
      if slot.Some? {
        assert Without([slot.value], slot.value) == [];
        listeners := Without(listeners, slot.value);
        slot := None;
      }
      var h := Handler(handlersCreated, tcOrigin);
      handlersCreated := handlersCreated + 1;
      slot := Some(h);
      listeners := listeners + [h];
    }

    /** The window delivers a `message` event to the registered handler. No
        reaction unregisters it: the listeners are the same afterwards.
        `TransactionSigned` hands the record over for submission, with
        `bufferResult` what the buffer then does; `CloseIframe` removes the
        first iframe container. */
    method Receive(e: MessageEvent, bufferResult: Option<Failure>)
      requires Valid()
      modifies this
      ensures Valid()
      ensures slot == old(slot) && listeners == old(listeners) && handlersCreated == old(handlersCreated)
      ensures paymentDetails == old(paymentDetails)
      ensures var r := if slot.Some? then Dispatch(slot.value.origin, e) else Ignored;
        && (r.Signed? ==>
              && containers == old(containers)
              && submissions == old(submissions) + Submitted(r.details)
              && notices == old(notices) + Lost(r.details, bufferResult))
        && (r.Close? ==>
              && containers == (if old(containers) == [] then [] else old(containers)[1..])
              && submissions == old(submissions) && notices == old(notices))
        && (!r.Signed? && !r.Close? ==>
              containers == old(containers) && submissions == old(submissions) && notices == old(notices))
    {
      if slot.Some? {
        var r := Dispatch(slot.value.origin, e);
        match r
        case Signed(td) => ScheduleSubmission(td, bufferResult);
        case Close => RemoveContainer();
        case _ =>
      }
    }

    /** The close callback: removes the first iframe container, if any. */
    method RemoveContainer()
      modifies this
      ensures containers == (if old(containers) == [] then [] else old(containers)[1..])
      ensures slot == old(slot) && listeners == old(listeners) && handlersCreated == old(handlersCreated)
      ensures notices == old(notices) && submissions == old(submissions) && paymentDetails == old(paymentDetails)
    {
      if containers != [] {
        containers := containers[1..];
      }
    }

    /** Builds the proof record and hands it to the submission buffer; when
        the buffer fails, the error shown carries the whole record. A payload
        without its signed message throws before anything is handed over. */
    method ScheduleSubmission(td: map<string, JsValue>, bufferResult: Option<Failure>)
      modifies this
      ensures submissions == old(submissions) + Submitted(td)
      ensures notices == old(notices) + Lost(td, bufferResult)
      ensures slot == old(slot) && listeners == old(listeners) && handlersCreated == old(handlersCreated)
      ensures containers == old(containers) && paymentDetails == old(paymentDetails)
    {
      var record := ProofRecord.Serialize(td);
      if record.Throw? {
        return;
      }
      submissions := submissions + [record.value];
      if bufferResult.Some? {
        notices := notices + [DetailsLost(record.value, bufferResult.value)];
      }
    }

    /** `makePayment`: resets the error area, then starts the payment and
        shows whatever the start throws. */
    method MakePayment(fetched: Completion<JsValue>, originOf: string -> Completion<string>)
      requires Valid()
      modifies this
      ensures Valid()
      ensures var st := StartOf(fetched, originOf, options, payLink);
        && notices == old(notices) + [ResetError] + StartNotices(st)
        && (st.Opened? ==>
              slot == Some(Handler(old(handlersCreated), st.origin)) && listeners == [slot.value]
              && handlersCreated == old(handlersCreated) + 1
              && containers == old(containers) + [st.url])
        && (!st.Opened? ==>
              slot == old(slot) && listeners == old(listeners) && handlersCreated == old(handlersCreated)
              && containers == old(containers))
      ensures submissions == old(submissions)
      ensures paymentDetails == (if fetched.Normal? then fetched.value else old(paymentDetails))
    {
      notices := notices + [ResetError];
      var thrown := TryToStartPaymentFlow(fetched, originOf);
      if thrown.Some? {
        notices := notices + [PayFlowError(thrown.value)];
      }
    }

    /** The start itself: stores the fetched details, stops on an order
        already paid for, else installs the handler and opens the iframe.
        Returns what it throws. */
    method TryToStartPaymentFlow(fetched: Completion<JsValue>, originOf: string -> Completion<string>)
      returns (thrown: Option<Failure>)
      requires Valid()
      modifies this
      ensures Valid()
      ensures var st := StartOf(fetched, originOf, options, payLink);
        && thrown == (if st.Failed? then Some(st.error) else None)
        && notices == old(notices) + (if st.AlreadyPaidStop? then [AlreadyPaid] else [])
        && (st.Opened? ==>
              slot == Some(Handler(old(handlersCreated), st.origin)) && listeners == [slot.value]
              && handlersCreated == old(handlersCreated) + 1
              && containers == old(containers) + [st.url])
        && (!st.Opened? ==>
              slot == old(slot) && listeners == old(listeners) && handlersCreated == old(handlersCreated)
              && containers == old(containers))
      ensures submissions == old(submissions)
      ensures paymentDetails == (if fetched.Normal? then fetched.value else old(paymentDetails))
    {
      if fetched.Throw? {
        return Some(fetched.error);
      }
      paymentDetails := fetched.value;
      var paid := Get(paymentDetails, "is_signature_submitted");
      if paid.Throw? {
        return Some(paid.error);
      }
      if StrictEquals(paid.value, Bool(true)) {
        notices := notices + [AlreadyPaid];
        return None;
      }
      var base := BaseUrl(paymentDetails, payLink);
      thrown := Make3citiesIframe(base, Prop(paymentDetails, "recipient_address"), Prop(paymentDetails, "amount"),
        Prop(paymentDetails, "primary_currency"), Prop(paymentDetails, "usd_per_eth"), originOf);
    }

    /** Installs the handler for the base URL's origin, then builds the
        iframe URL and opens the iframe with it. Returns what it throws: in
        the model only the origin can fail, before anything changes (the
        URIError `encodeURIComponent` raises on a lone surrogate cannot arise
        for strings of Unicode scalar values). */
    method Make3citiesIframe(tcBaseUrl: string, receiverAddress: JsValue, amount: JsValue, primaryCurrency: JsValue,
                             usdPerEth: JsValue, originOf: string -> Completion<string>)
      returns (thrown: Option<Failure>)
      requires Valid()
      modifies this
      ensures Valid()
      ensures originOf(tcBaseUrl).Throw? ==>
        && thrown == Some(originOf(tcBaseUrl).error)
        && slot == old(slot) && listeners == old(listeners) && handlersCreated == old(handlersCreated)
        && containers == old(containers)
      ensures originOf(tcBaseUrl).Normal? ==>
        && thrown == None
        && slot == Some(Handler(old(handlersCreated), originOf(tcBaseUrl).value)) && listeners == [slot.value]
        && handlersCreated == old(handlersCreated) + 1
        && containers == old(containers) + [IframeUrl.Url(tcBaseUrl, IframeUrl.Params(
             ToString(receiverAddress), ToString(amount), ToString(primaryCurrency), ToString(usdPerEth),
             options))]
      ensures notices == old(notices) && submissions == old(submissions) && paymentDetails == old(paymentDetails)
    {
      var origin := originOf(tcBaseUrl);
      if origin.Throw? {
        return Some(origin.error);
      }
      InstallHandler(origin.value);
      var url := IframeUrl.ComputeUrl(tcBaseUrl, ToString(receiverAddress), ToString(amount),
        ToString(primaryCurrency), ToString(usdPerEth), options);
      containers := containers + [url];
      return None;
    }
  }

  /** The records a `TransactionSigned` payload hands to the buffer: its
      proof record, or none when building the record throws. */
  function Submitted(td: map<string, JsValue>): seq<ProofRecord.Record> {
    match ProofRecord.ProofOf(td)
    case Throw(_) => []
    case Normal(record) => [record]
  }

  /** What the error area is told after the hand-off: the lost-details error,
      carrying the whole record, when the buffer fails. */
  function Lost(td: map<string, JsValue>, bufferResult: Option<Failure>): seq<Notice> {
    match ProofRecord.ProofOf(td)
    case Throw(_) => []
    case Normal(record) => if bufferResult.Some? then [DetailsLost(record, bufferResult.value)] else []
  }
}
