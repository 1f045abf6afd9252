/**
 * The direct-wallet payment flow (pretix_eth/static/pretix_eth/web3modal.js):
 * one run of `makePayment` over the page's remembered wallet state
 * (`selectedAccount`, `signedByAccount`, `hasSigned`).
 *
 * The calls that request something of the wallet or the server, or show
 * something on the page, are recorded as `Action`s: the details fetch, the
 * chain switch, the signature request, the two transfers, the submission and
 * the error shown. What the wallet or the server answers, including the
 * answers of `getAccounts` and `getChainId`, which are not recorded, is
 * supplied up front as `Responses`, so that a run is a function of the state
 * before it and of those answers.
 * `Run` is that function; `WalletSession.MakePayment` performs the same run
 * step by step on the session's fields and is proved to agree with it.
 */
module WalletFlow {
  import opened Wrappers
  import opened Js
  import ChainIdHex

  /** What `fetch` of the order details yields: the HTTP status and what
      `response.json()` then gives (a parse failure throws). */
  datatype HttpResponse = HttpResponse(status: int, body: Completion<JsValue>)

  /** What the wallet does with a native transfer: it may report a
      transaction hash, and the awaited call then resolves or throws. */
  datatype NativeOutcome = NativeOutcome(hash: Option<JsValue>, settled: Option<Failure>)

  /** The answers of everything a run waits on, in the order it asks. */
  datatype Responses = Responses(
    accounts: Completion<seq<JsValue>>,        // web3.eth.getAccounts()
    details: Completion<HttpResponse>,         // fetch of the order details
    currentChainId: Completion<JsValue>,       // web3.eth.getChainId()
    injectedProvider: bool,                    // whether window.ethereum exists
    signature: Completion<JsValue>,            // web3.eth.personal.sign(...)
    erc20Hash: Completion<JsValue>,            // the ERC-20 transfer's hash
    native: NativeOutcome)                     // web3.eth.sendTransaction(...)

  /** What a run shows in the page's error area. */
  datatype Notice = AlreadyPaid | Caught(error: Failure)

  /** The calls a run makes on the outside world, in order. */
  datatype Action =
    | FetchDetails(senderAddress: JsValue)
    | SwitchChain(chainId: string)
    | RequestSignature(message: JsValue, account: JsValue)
    | Erc20Transfer
    | NativeTransfer(from: JsValue, to: JsValue, value: JsValue)
    | SubmitSignature(signature: JsValue, transactionHash: JsValue)
    | ShowError(notice: Notice)

  /** The remembered wallet state. */
  datatype Session = Session(selectedAccount: JsValue, signedByAccount: JsValue, hasSigned: bool)

  /** The state a page starts with. */
  const Initial := Session(Str(""), Str(""), false)

  /** What a run leaves behind: the new state, the calls it made and, for
      the inner body, what it threw. */
  datatype Attempt = Attempt(session: Session, actions: seq<Action>, thrown: Option<Failure>)

  /** `accounts[0]`. */
  function First(accounts: seq<JsValue>): JsValue {
    if |accounts| > 0 then accounts[0] else Undefined
  }

  /** `getPaymentTransactionData`: an HTTP error status (400 or above) throws,
      otherwise the parsed body is returned. */
  function PaymentTransactionData(response: Completion<HttpResponse>): Completion<JsValue> {
    match response
    case Throw(e) => Throw(e)
    case Normal(r) => if r.status >= 400 then Throw(DetailsUnavailable) else r.body
  }

  /** Whether the run asks for a new signature. */
  predicate NeedsSignature(s: Session) {
    !s.hasSigned || !StrictEquals(s.selectedAccount, s.signedByAccount)
  }

  /** `_makePayment`: the body of a run, up to what it throws. */
  function TryRun(s: Session, r: Responses): Attempt {
    match r.accounts
    case Throw(e) => Attempt(s, [], Some(e))
    case Normal(accounts) =>
      var s1 := s.(selectedAccount := First(accounts));
      var fetched := [FetchDetails(s1.selectedAccount)];
      match PaymentTransactionData(r.details)
      case Throw(e) => Attempt(s1, fetched, Some(e))
      case Normal(pd) =>
        match Get(pd, "is_signature_submitted")
        case Throw(e) => Attempt(s1, fetched, Some(e))
        case Normal(paid) =>
          if StrictEquals(paid, Bool(true)) then Attempt(s1, fetched + [ShowError(AlreadyPaid)], None)
          else
            var rest := AfterPaidCheck(s1, pd, r);
            Attempt(rest.session, fetched + rest.actions, rest.thrown)
  }

  /** The chain check, the signature and the transfer, for order details `pd`
      that are not undefined or null. */
  function AfterPaidCheck(s: Session, pd: JsValue, r: Responses): Attempt
    requires !Nullish(pd)
  {
    match r.currentChainId
    case Throw(e) => Attempt(s, [], Some(e))
    case Normal(current) =>
      var switch := ChainSwitch(Prop(pd, "chain_id"), current, r.injectedProvider);
      if switch.Throw? then Attempt(s, [], Some(switch.error))
      else
        var signing := Signing(s, pd, r);
        if signing.thrown.Some? then Attempt(signing.session, switch.value + signing.actions, signing.thrown)
        else
          var transfer := Transfer(signing.session, pd, r, SignatureOf(s, r));
          Attempt(signing.session, switch.value + signing.actions + transfer.actions, transfer.thrown)
  }

  /** The chain-switch request, made only when the order's chain differs
      from the wallet's. */
  function ChainSwitch(chainId: JsValue, current: JsValue, injectedProvider: bool): Completion<seq<Action>> {
    if StrictEquals(chainId, current) then Normal([])
    else
      match ChainIdHex.DesiredChainId(chainId)
      case Throw(e) => Throw(e)
      case Normal(id) => if injectedProvider then Normal([SwitchChain(id)]) else Throw(TypeError)
  }

  /** The signature step: asks for one only when `NeedsSignature`. */
  function Signing(s: Session, pd: JsValue, r: Responses): Attempt
    requires !Nullish(pd)
  {
    if !NeedsSignature(s) then Attempt(s, [], None)
    else
      var asked := [RequestSignature(Prop(pd, "message"), s.selectedAccount)];
      match r.signature
      case Throw(e) => Attempt(s, asked, Some(e))
      case Normal(_) => Attempt(s.(hasSigned := true, signedByAccount := s.selectedAccount), asked, None)
  }

  /** `messageSignature` at submission time: the new signature when this run
      signed, otherwise undefined. */
  function SignatureOf(s: Session, r: Responses): JsValue {
    if NeedsSignature(s) && r.signature.Normal? then r.signature.value else Undefined
  }

  /** The transfer, chosen by `erc20_contract_address !== null`, and the
      submission of the hash it yields. */
  function Transfer(s: Session, pd: JsValue, r: Responses, signature: JsValue): Attempt
    requires !Nullish(pd)
  {
    if !s.hasSigned then Attempt(s, [], None)
    else if Prop(pd, "erc20_contract_address") != Null then
      match r.erc20Hash
      case Throw(e) => Attempt(s, [Erc20Transfer], Some(e))
      case Normal(hash) => Attempt(s, [Erc20Transfer, SubmitSignature(signature, hash)], None)
    else
      var sent := [NativeTransfer(s.selectedAccount, Prop(pd, "recipient_address"), Prop(pd, "amount"))];
      var submitted := if r.native.hash.Some? then [SubmitSignature(signature, r.native.hash.value)] else [];
      Attempt(s, sent + submitted, r.native.settled)
  }

  /** `makePayment`: the run, with whatever it throws shown as an error. */
  function Run(s: Session, r: Responses): Attempt {
    var t := TryRun(s, r);
    Attempt(t.session, t.actions + (if t.thrown.Some? then [ShowError(Caught(t.thrown.value))] else []), None)
  }

  /** `getPaymentTransactionData` fails exactly when the request fails, the
      status is 400 or above, or the body does not parse; otherwise it gives
      the parsed body. */
  lemma PaymentTransactionDataFailure(response: Completion<HttpResponse>)
    ensures PaymentTransactionData(response).Throw? <==>
      response.Throw? || response.value.status >= 400 || response.value.body.Throw?
    ensures response.Normal? && response.value.status >= 400 ==>
      PaymentTransactionData(response) == Throw(DetailsUnavailable)
    ensures PaymentTransactionData(response).Normal? ==>
      PaymentTransactionData(response).value == response.value.body.value
  {
  }

  /** The wallet requests a run can make: a chain switch, a signature or a
      transfer. */
  predicate WalletRequest(a: Action) {
    a.SwitchChain? || a.RequestSignature? || a.Erc20Transfer? || a.NativeTransfer?
  }

  /** Order details the fetch delivers in a run with responses `r`. */
  predicate Delivers(r: Responses, pd: JsValue) {
    r.accounts.Normal? && PaymentTransactionData(r.details) == Normal(pd)
  }

  /** An order already paid for: the run shows the already-paid error and asks
      the wallet for nothing, and only the selected account changes. */
  lemma AlreadyPaidStops(s: Session, r: Responses, pd: JsValue)
    requires Delivers(r, pd) && pd.Obj? && Lookup(pd.props, "is_signature_submitted") == Bool(true)
    ensures Run(s, r).actions == [FetchDetails(First(r.accounts.value)), ShowError(AlreadyPaid)]
    ensures forall a :: a in Run(s, r).actions ==> !WalletRequest(a)
    ensures Run(s, r).session == s.(selectedAccount := First(r.accounts.value))
  {
  }

  /** A chain switch is requested exactly when the order's chain id is not
      strictly equal to the wallet's (and the id can be rendered and sent);
      the id requested for a non-negative number reads back as that number. */
  lemma ChainSwitchRequest(chainId: JsValue, current: JsValue, injectedProvider: bool)
    ensures StrictEquals(chainId, current) ==> ChainSwitch(chainId, current, injectedProvider) == Normal([])
    ensures !StrictEquals(chainId, current) ==>
      (ChainSwitch(chainId, current, injectedProvider).Normal? <==> !Nullish(chainId) && injectedProvider)
    ensures !StrictEquals(chainId, current) && ChainSwitch(chainId, current, injectedProvider).Normal? ==>
      ChainSwitch(chainId, current, injectedProvider).value
        == [SwitchChain(ChainIdHex.DesiredChainId(chainId).value)]
    ensures !StrictEquals(chainId, current) && chainId.Num? && chainId.n >= 0 && injectedProvider ==>
      ChainSwitch(chainId, current, injectedProvider) == Normal([SwitchChain(ChainIdHex.DesiredChainId(chainId).value)])
      && ChainIdHex.ParseQuantity(ChainIdHex.DesiredChainId(chainId).value) == Some(chainId.n)
  {
    ChainIdHex.DesiredChainIdFailure(chainId);
    if chainId.Num? && chainId.n >= 0 {
      ChainIdHex.ChainIdRoundTrip(chainId.n);
    }
  }

  /** A signature is requested exactly when nothing has been signed yet or the
      selected account is not the last signer. Whenever the step goes through,
      something is signed and the selected account is the last signer; when
      no signature is asked for, or the wallet refuses, nothing changes. */
  lemma SignatureRequest(s: Session, pd: JsValue, r: Responses)
    requires !Nullish(pd)
    ensures var g := Signing(s, pd, r);
      && (g.actions != [] <==> !s.hasSigned || !StrictEquals(s.selectedAccount, s.signedByAccount))
      && (g.actions != [] ==> g.actions == [RequestSignature(Prop(pd, "message"), s.selectedAccount)])
      && (g.thrown.None? ==>
            g.session.hasSigned && g.session.selectedAccount == s.selectedAccount
            && g.session.signedByAccount == s.selectedAccount)
      && (g.actions == [] || g.thrown.Some? ==> g.session == s)
  {
  }

  /** `messageSignature` is undefined at submission time whenever the run did
      not sign. */
  lemma NoSignatureWithoutSigning(s: Session, r: Responses)
    ensures !NeedsSignature(s) ==> SignatureOf(s, r) == Undefined
    ensures NeedsSignature(s) && r.signature.Normal? ==> SignatureOf(s, r) == r.signature.value
  {
  }

  /** The submissions among a list of calls. */
  function Submissions(actions: seq<Action>): (subs: seq<Action>)
    ensures forall a :: a in subs ==> a in actions && a.SubmitSignature?
    ensures forall a :: a in actions && a.SubmitSignature? ==> a in subs
  {
    if actions == [] then []
    else (if actions[0].SubmitSignature? then [actions[0]] else []) + Submissions(actions[1..])
  }

  /** Whether the transfer goes through the ERC-20 branch: the order's
      `erc20_contract_address` is anything but null (an absent one is
      undefined, so it counts as ERC-20). */
  predicate UsesErc20(pd: JsValue)
    requires !Nullish(pd)
  {
    Prop(pd, "erc20_contract_address") != Null
  }

  /** The transfer branch follows `UsesErc20`; the native transfer pays the
      order's recipient its amount from the selected account; and every hash
      the transfer yields leads to exactly one submission, carrying that hash
      and the signature passed in. */
  lemma TransferShape(s: Session, pd: JsValue, r: Responses, signature: JsValue)
    requires !Nullish(pd) && s.hasSigned
    ensures var t := Transfer(s, pd, r, signature);
      && t.session == s
      && |t.actions| >= 1
      && (t.actions[0] == Erc20Transfer <==> UsesErc20(pd))
      && (!UsesErc20(pd) ==>
            t.actions[0] == NativeTransfer(s.selectedAccount, Prop(pd, "recipient_address"), Prop(pd, "amount")))
      && (UsesErc20(pd) ==>
            Submissions(t.actions) == (if r.erc20Hash.Normal? then [SubmitSignature(signature, r.erc20Hash.value)] else []))
      && (!UsesErc20(pd) ==>
            Submissions(t.actions) == (if r.native.hash.Some? then [SubmitSignature(signature, r.native.hash.value)] else []))
  {
    var t := Transfer(s, pd, r, signature);
    if UsesErc20(pd) {
      if r.erc20Hash.Normal? {
        assert t.actions == [Erc20Transfer] + [SubmitSignature(signature, r.erc20Hash.value)];
        SubmissionsAppend([Erc20Transfer], [SubmitSignature(signature, r.erc20Hash.value)]);
      }
    } else {
      var sent := [NativeTransfer(s.selectedAccount, Prop(pd, "recipient_address"), Prop(pd, "amount"))];
      var submitted := if r.native.hash.Some? then [SubmitSignature(signature, r.native.hash.value)] else [];
      SubmissionsAppend(sent, submitted);
      if r.native.hash.Some? {
        SubmissionsAppend(submitted, []);
        assert submitted + [] == submitted;
      }
    }
  }

  lemma {:induction false} SubmissionsAppend(a: seq<Action>, b: seq<Action>)
    ensures Submissions(a + b) == Submissions(a) + Submissions(b)
  {
    if a != [] {
      SubmissionsAppend(a[1..], b);
      assert (a + b)[0] == a[0] && (a + b)[1..] == a[1..] + b;
      AppendAssoc(if a[0].SubmitSignature? then [a[0]] else [], Submissions(a[1..]), Submissions(b));
    } else {
      assert a + b == b;
    }
  }

  /** A run changes the selected account to the wallet's first account (when
      the wallet lists accounts at all), never forgets that something was
      signed, and changes the last signer only to the account it selected. */
  lemma RunKeepsSigned(s: Session, r: Responses)
    ensures var t := Run(s, r).session;
      && (s.hasSigned ==> t.hasSigned)
      && (r.accounts.Normal? ==> t.selectedAccount == First(r.accounts.value))
      && (r.accounts.Throw? ==> t == s)
      && (t.signedByAccount == s.signedByAccount || t.signedByAccount == t.selectedAccount)
  {
  }

  /** The responses of a run that reaches the signature step and goes
      through: the wallet lists `account` first, the order is not yet paid,
      the chains agree or the switch request can be sent (it is not awaited),
      and the wallet signs. */
  predicate Cooperative(r: Responses, account: JsValue) {
    && r.accounts.Normal? && First(r.accounts.value) == account
    && PaymentTransactionData(r.details).Normal?
    && var pd := PaymentTransactionData(r.details).value;
    && pd.Obj?
    && !StrictEquals(Lookup(pd.props, "is_signature_submitted"), Bool(true))
    && r.currentChainId.Normal?
    && ChainSwitch(Lookup(pd.props, "chain_id"), r.currentChainId.value, r.injectedProvider).Normal?
    && r.signature.Normal?
  }

  /** A cooperative run signs exactly when `NeedsSignature` holds after the
      account is selected, and leaves `account` as both the selected account
      and the last signer. */
  lemma CooperativeRun(s: Session, r: Responses, account: JsValue)
    requires Cooperative(r, account) && !account.Obj?
    ensures Run(s, r).session == Session(account, account, true)
    ensures (exists m :: RequestSignature(m, account) in Run(s, r).actions)
        <==> NeedsSignature(s.(selectedAccount := account))
  {
    var pd := PaymentTransactionData(r.details).value;
    var s1 := s.(selectedAccount := account);
    var g := Signing(s1, pd, r);
    var sw := ChainSwitch(Prop(pd, "chain_id"), r.currentChainId.value, r.injectedProvider);
    assert sw.Normal? && forall a :: a in sw.value ==> a.SwitchChain?;
    var tr := Transfer(g.session, pd, r, SignatureOf(s1, r));
    var acts := [FetchDetails(account)] + (sw.value + g.actions + tr.actions);
    assert Run(s, r).actions == acts + (if tr.thrown.Some? then [ShowError(Caught(tr.thrown.value))] else []);
    NoSignatureRequestInTransfer(g.session, pd, r, SignatureOf(s1, r));
    if NeedsSignature(s1) {
      assert RequestSignature(Prop(pd, "message"), account) in Run(s, r).actions;
    } else {
      assert g.actions == [];
      forall m ensures RequestSignature(m, account) !in Run(s, r).actions {
        assert RequestSignature(m, account) !in sw.value;
        assert RequestSignature(m, account) !in tr.actions;
      }
    }
  }

  lemma NoSignatureRequestInTransfer(s: Session, pd: JsValue, r: Responses, signature: JsValue)
    requires !Nullish(pd)
    ensures forall a :: a in Transfer(s, pd, r, signature).actions ==> !a.RequestSignature?
  {
  }

  /** Only the last signer is remembered: after account A signs, account B
      signs, and the wallet switches back to A, A is asked to sign again. */
  lemma SwitchingBackSignsAgain(s: Session, r1: Responses, r2: Responses, r3: Responses, a: string, b: string)
    requires a != b
    requires Cooperative(r1, Str(a)) && Cooperative(r2, Str(b)) && Cooperative(r3, Str(a))
    ensures var s3 := Run(Run(s, r1).session, r2).session;
      exists m :: RequestSignature(m, Str(a)) in Run(s3, r3).actions
  {
    CooperativeRun(s, r1, Str(a));
    CooperativeRun(Run(s, r1).session, r2, Str(b));
    CooperativeRun(Run(Run(s, r1).session, r2).session, r3, Str(a));
  }

  /** Disconnecting keeps the last signer, so reconnecting the same account
      does not ask for a new signature. */
  lemma ReconnectSameAccountSkipsSigning(s: Session, r: Responses, a: string)
    requires s.hasSigned && s.signedByAccount == Str(a)
    requires Cooperative(r, Str(a))
    ensures !exists m :: RequestSignature(m, Str(a)) in Run(s.(selectedAccount := Null), r).actions
  {
    CooperativeRun(s.(selectedAccount := Null), r, Str(a));
  }

  /** What the disconnect handler throws for the page's `provider`: a
      TypeError when it is undefined or null, the close failure when it has
      a `close` method that fails, otherwise nothing. */
  function DisconnectThrows(provider: JsValue, closeOutcome: Option<Failure>): Option<Failure> {
    if Nullish(provider) then Some(TypeError)
    else if Truthy(Prop(provider, "close")) then closeOutcome
    else None
  }

  /** The page's `provider` after the disconnect handler: null once a
      provider with a `close` method has been closed, otherwise as it was. */
  function ProviderAfter(provider: JsValue, closeOutcome: Option<Failure>): JsValue {
    if !Nullish(provider) && Truthy(Prop(provider, "close")) && closeOutcome.None? then Null else provider
  }

  /** A disconnect that closes the provider goes through, and the provider it
      leaves makes the next disconnect throw a TypeError, whatever closing
      would do then; a disconnect whose close fails leaves the provider as it
      was, so the next one tries to close it again. */
  lemma DisconnectAfterClose(provider: JsValue, first: Option<Failure>, second: Option<Failure>)
    requires !Nullish(provider) && Truthy(Prop(provider, "close"))
    ensures first.None? ==> DisconnectThrows(provider, first) == None
    ensures first.None? ==> DisconnectThrows(ProviderAfter(provider, first), second) == Some(TypeError)
    ensures first.Some? ==> DisconnectThrows(ProviderAfter(provider, first), second) == second
  {
  }

  /** The page's remembered wallet state and the log of its calls. */
  class WalletSession {
    var selectedAccount: JsValue
    var signedByAccount: JsValue
    var hasSigned: bool
    var actions: seq<Action>

    function State(): Session
      reads this
    {
      Session(selectedAccount, signedByAccount, hasSigned)
    }

    constructor ()
      ensures State() == Initial && actions == []
    {
      selectedAccount := Str("");
      signedByAccount := Str("");
      hasSigned := false;
      actions := [];
    }

    /** `makePayment`: runs the body and shows what it throws. */
    method MakePayment(r: Responses)
      modifies this
      ensures State() == Run(old(State()), r).session
      ensures actions == old(actions) + Run(old(State()), r).actions
    {
      var thrown := TryMakePayment(r);
      if thrown.Some? {
        actions := actions + [ShowError(Caught(thrown.value))];
      }
    }

    /** `_makePayment`, step by step; returns what it throws. */
    method TryMakePayment(r: Responses) returns (thrown: Option<Failure>)
      modifies this
      ensures State() == TryRun(old(State()), r).session
      ensures actions == old(actions) + TryRun(old(State()), r).actions
      ensures thrown == TryRun(old(State()), r).thrown
    {
      if r.accounts.Throw? {
        return Some(r.accounts.error);
      }
      ghost var a0 := actions;
      selectedAccount := First(r.accounts.value);
      actions := actions + [FetchDetails(selectedAccount)];
      var details := PaymentTransactionData(r.details);
      if details.Throw? {
        return Some(details.error);
      }
      var paymentDetails := details.value;
      var paid := Get(paymentDetails, "is_signature_submitted");
      if paid.Throw? {
        return Some(paid.error);
      }
      if StrictEquals(paid.value, Bool(true)) {
        actions := actions + [ShowError(AlreadyPaid)];
        return None;
      }
      ghost var fetched := [FetchDetails(selectedAccount)];
      ghost var rest := AfterPaidCheck(State(), paymentDetails, r);
      thrown := PayForOrder(paymentDetails, r);
      AppendAssoc(a0, fetched, rest.actions);
    }

    /** The part of `_makePayment` after the already-paid check. */
    method PayForOrder(pd: JsValue, r: Responses) returns (thrown: Option<Failure>)
      requires !Nullish(pd)
      modifies this
      ensures State() == AfterPaidCheck(old(State()), pd, r).session
      ensures actions == old(actions) + AfterPaidCheck(old(State()), pd, r).actions
      ensures thrown == AfterPaidCheck(old(State()), pd, r).thrown
    {
      if r.currentChainId.Throw? {
        return Some(r.currentChainId.error);
      }
      ghost var s0, a0 := State(), actions;
      thrown := SwitchChainIfNeeded(Prop(pd, "chain_id"), r.currentChainId.value, r.injectedProvider);
      if thrown.Some? {
        return;
      }
      ghost var switched := ChainSwitch(Prop(pd, "chain_id"), r.currentChainId.value, r.injectedProvider).value;
      ghost var signing := Signing(s0, pd, r);
      var messageSignature;
      messageSignature, thrown := SignIfNeeded(pd, r);
      if thrown.Some? {
        AppendAssoc(a0, switched, signing.actions);
        return;
      }
      ghost var transfer := Transfer(signing.session, pd, r, messageSignature);
      thrown := SendPayment(pd, r, messageSignature);
      AppendAssoc(a0, switched, signing.actions);
      AppendAssoc(a0, switched + signing.actions, transfer.actions);
    }

    /** Asks the wallet to switch chains when the order's chain id is not
        strictly equal to the wallet's. */
    method SwitchChainIfNeeded(chainId: JsValue, current: JsValue, injectedProvider: bool)
      returns (thrown: Option<Failure>)
      modifies this
      ensures State() == old(State())
      ensures var c := ChainSwitch(chainId, current, injectedProvider);
        && thrown == (if c.Throw? then Some(c.error) else None)
        && actions == old(actions) + (if c.Normal? then c.value else [])
    {
      thrown := None;
      if !StrictEquals(chainId, current) {
        var desired := ChainIdHex.DesiredChainId(chainId);
        if desired.Throw? {
          return Some(desired.error);
        }
        if !injectedProvider {
          return Some(TypeError);
        }
        actions := actions + [SwitchChain(desired.value)];
      }
    }

    /** Signs the order's message when nothing has been signed yet or the
        selected account is not the last signer; returns `messageSignature`. */
    method SignIfNeeded(pd: JsValue, r: Responses) returns (messageSignature: JsValue, thrown: Option<Failure>)
      requires !Nullish(pd)
      modifies this
      ensures State() == Signing(old(State()), pd, r).session
      ensures actions == old(actions) + Signing(old(State()), pd, r).actions
      ensures thrown == Signing(old(State()), pd, r).thrown
      ensures messageSignature == SignatureOf(old(State()), r)
    {
      messageSignature, thrown := Undefined, None;
      if !hasSigned || !StrictEquals(selectedAccount, signedByAccount) {
        actions := actions + [RequestSignature(Prop(pd, "message"), selectedAccount)];
        if r.signature.Throw? {
          return Undefined, Some(r.signature.error);
        }
        messageSignature := r.signature.value;
        hasSigned := true;
        signedByAccount := selectedAccount;
      }
    }

    /** Makes the transfer and submits the signature with the hash it yields. */
    method SendPayment(pd: JsValue, r: Responses, messageSignature: JsValue) returns (thrown: Option<Failure>)
      requires !Nullish(pd)
      modifies this
      ensures State() == old(State())
      ensures actions == old(actions) + Transfer(old(State()), pd, r, messageSignature).actions
      ensures thrown == Transfer(old(State()), pd, r, messageSignature).thrown
    {
      thrown := None;
      if hasSigned {
        if Prop(pd, "erc20_contract_address") != Null {
          actions := actions + [Erc20Transfer];
          if r.erc20Hash.Throw? {
            return Some(r.erc20Hash.error);
          }
          actions := actions + [SubmitSignature(messageSignature, r.erc20Hash.value)];
        } else {
          actions := actions + [NativeTransfer(selectedAccount, Prop(pd, "recipient_address"), Prop(pd, "amount"))];
          if r.native.hash.Some? {
            actions := actions + [SubmitSignature(messageSignature, r.native.hash.value)];
          }
          thrown := r.native.settled;
        }
      }
    }

    /** `web3ModalOnDisconnect` for the page's current `provider`, with
        `closeOutcome` what awaiting `provider.close()` and then
        `clearCachedProvider()` throws, if anything. A provider with a
        `close` method is closed and the page's `provider` becomes null
        (returned as `provider'`); the selected account is then forgotten
        and nothing else. Reading `close` of a null provider (the state an
        earlier disconnect leaves) throws a TypeError, and a failed close
        throws its error: in both cases the handler stops before the
        selected account is touched, and the error is returned. */
    method Disconnect(provider: JsValue, closeOutcome: Option<Failure>)
      returns (thrown: Option<Failure>, provider': JsValue)
      modifies this
      ensures thrown == DisconnectThrows(provider, closeOutcome)
      ensures provider' == ProviderAfter(provider, closeOutcome)
      ensures thrown.Some? ==> State() == old(State())
      ensures thrown.None? ==> State() == old(State()).(selectedAccount := Null)
      ensures actions == old(actions)
    {
      provider' := provider;
      if Nullish(provider) {
        return Some(TypeError), provider';
      }
      if Truthy(Prop(provider, "close")) {
        if closeOutcome.Some? {
          return closeOutcome, provider';
        }
        provider' := Null;
      }
      selectedAccount := Null;
      thrown := None;
    }
  }
}
