/** The send/receive modal: its form state, the validation gate of its submit
    handler, the simulated settlement delay, and the callbacks it emits.

    The handler's `await` of a fixed 2000 ms timer is split into two
    transitions: `Submit` (gate, then enter the pending state) and
    `DelayElapsed` (the settlement timer fired: emit `onSubmit` and `onClose`,
    reset the form). The handler never looks at
    `isLoading`, so a second `Submit` that reaches it while one is pending
    queues a second completion; only the disabled submit button prevents that. */
module SubmissionFlow {
  import opened Common

  datatype Mode = Send | Receive

  /** One entry of the `tokens` prop: a symbol and the balance held. */
  datatype TokenBalance = TokenBalance(symbol: string, balance: real)

  /** The modal's four pieces of React state. */
  datatype Form = Form(amount: string, selectedToken: string, address: string, isLoading: bool)

  /** The values the submit handler captured when it ran: React hands it the
      state of the render in which the form was submitted, so edits made while
      the delay runs do not reach `onSubmit`. */
  datatype Request = Request(amount: string, token: string, address: string)

  /** Form state plus the settlement timers still running, oldest first.
      Timers of equal delay fire in the order they were set. */
  datatype Modal = Modal(form: Form, inFlight: seq<Request>)

  datatype Event =
    | EditAmount(text: string)
    | EditAddress(text: string)
    | SelectToken(symbol: string)
    | Submit
    | DelayElapsed
    | CloseClicked

  /** Calls the modal makes on its host: `onSubmit(amount, token, address)` and `onClose()`. */
  datatype Emitted = Submitted(amount: real, token: string, address: string) | Closed

  datatype StepResult = StepResult(next: Modal, emitted: seq<Emitted>)

  /** Why the gate turned a submission away. */
  datatype ValidationError = MissingAmount | MissingAddress

  datatype Verdict = Accepted | Rejected(reason: ValidationError)

  const DefaultToken: string := "SOL"

  const InitialForm: Form := Form("", DefaultToken, "", false)

  const InitialModal: Modal := Modal(InitialForm, [])

  /** The handler's gate. JavaScript strings are falsy exactly when empty, so
      only emptiness is checked: "0" or any other non-empty text passes. */
  function Validate(mode: Mode, f: Form): (v: Verdict)
    ensures v.Accepted? <==> f.amount != "" && (mode == Send ==> f.address != "")
  {
    if f.amount == "" then Rejected(MissingAmount)
    else if mode == Send && f.address == "" then Rejected(MissingAddress)
    else Accepted
  }

  /** The submit button's `disabled` attribute. */
  function SubmitDisabled(mode: Mode, f: Form): (disabled: bool)
    ensures disabled <==> f.isLoading || Validate(mode, f).Rejected?
  {
    f.isLoading || f.amount == "" || (mode == Send && f.address == "")
  }

  /** What `onSubmit` receives for a captured request; `parse` stands for `parseFloat`. */
  function Completion(parse: string -> real, r: Request): Emitted {
    Submitted(parse(r.amount), r.token, r.address)
  }

  /** The request that an accepted submission of `f` enqueues. */
  function Capture(f: Form): Request {
    Request(f.amount, f.selectedToken, f.address)
  }

  /** One transition of the modal. */
  function Step(mode: Mode, parse: string -> real, m: Modal, e: Event): (r: StepResult)
    ensures e.Submit? && Validate(mode, m.form).Rejected? ==> r == StepResult(m, [])
    ensures e.Submit? && Validate(mode, m.form).Accepted? ==>
      && r.emitted == []
      && r.next.form == m.form.(isLoading := true)
      && r.next.inFlight == m.inFlight + [Capture(m.form)]
    ensures e.DelayElapsed? && m.inFlight != [] ==>
      && r.emitted == [Completion(parse, m.inFlight[0]), Closed]
      && r.next.inFlight == m.inFlight[1..]
      && r.next.form == Form("", m.form.selectedToken, "", false)
    ensures e.DelayElapsed? && m.inFlight == [] ==> r == StepResult(m, [])
    ensures e.EditAmount? ==> r == StepResult(Modal(m.form.(amount := e.text), m.inFlight), [])
    ensures e.EditAddress? ==> r == StepResult(Modal(m.form.(address := e.text), m.inFlight), [])
    ensures e.SelectToken? ==> r == StepResult(Modal(m.form.(selectedToken := e.symbol), m.inFlight), [])
    ensures e.CloseClicked? ==> r == StepResult(m, [Closed])
    ensures !e.DelayElapsed? ==> forall i :: 0 <= i < |r.emitted| ==> r.emitted[i] == Closed
  {
    match e
    case EditAmount(text) => StepResult(m.(form := m.form.(amount := text)), [])
    case EditAddress(text) => StepResult(m.(form := m.form.(address := text)), [])
    case SelectToken(symbol) => StepResult(m.(form := m.form.(selectedToken := symbol)), [])
    case Submit =>
      if Validate(mode, m.form).Rejected? then StepResult(m, [])
      else StepResult(Modal(m.form.(isLoading := true), m.inFlight + [Capture(m.form)]), [])
    case DelayElapsed =>
      if m.inFlight == [] then StepResult(m, [])
      else
        var req := m.inFlight[0];
        var f := m.form.(isLoading := false, amount := "", address := "");
        StepResult(Modal(f, m.inFlight[1..]), [Completion(parse, req), Closed])
    case CloseClicked => StepResult(m, [Closed])
  }

  /** The requests a step enqueues: one for an accepted submission, none otherwise. */
  function Enqueued(mode: Mode, m: Modal, e: Event): seq<Request> {
    if e.Submit? && Validate(mode, m.form).Accepted? then [Capture(m.form)] else []
  }

  /** A sequence of events, with the callbacks emitted along the way. */
  function Run(mode: Mode, parse: string -> real, m: Modal, events: seq<Event>): StepResult
    decreases |events|
  {
    if events == [] then StepResult(m, [])
    else
      var s := Step(mode, parse, m, events[0]);
      var rest := Run(mode, parse, s.next, events[1..]);
      StepResult(rest.next, s.emitted + rest.emitted)
  }

  /** Every request accepted along a run, in acceptance order. */
  function AcceptedAlong(mode: Mode, parse: string -> real, m: Modal, events: seq<Event>): seq<Request>
    decreases |events|
  {
    if events == [] then []
    else Enqueued(mode, m, events[0]) + AcceptedAlong(mode, parse, Step(mode, parse, m, events[0]).next, events[1..])
  }

  /** A step as the browser delivers it: a form submission is only possible
      through the submit button, and a disabled button submits nothing. */
  function ButtonStep(mode: Mode, parse: string -> real, m: Modal, e: Event): (r: StepResult)
    ensures e.Submit? && SubmitDisabled(mode, m.form) ==> r == StepResult(m, [])
    ensures !(e.Submit? && SubmitDisabled(mode, m.form)) ==> r == Step(mode, parse, m, e)
    ensures SingleFlight(m) ==> SingleFlight(r.next)
  {
    if e.Submit? && SubmitDisabled(mode, m.form) then StepResult(m, []) else Step(mode, parse, m, e)
  }

  /** A sequence of events delivered through the browser. Starting with at most
      one settlement in flight, it never gets a second one. */
  function ButtonRun(mode: Mode, parse: string -> real, m: Modal, events: seq<Event>): (r: StepResult)
    ensures SingleFlight(m) ==> SingleFlight(r.next)
    decreases |events|
  {
    if events == [] then StepResult(m, [])
    else
      var s := ButtonStep(mode, parse, m, events[0]);
      var rest := ButtonRun(mode, parse, s.next, events[1..]);
      StepResult(rest.next, s.emitted + rest.emitted)
  }

  /** At most one settlement in flight, and the loading flag says whether there is one. */
  predicate SingleFlight(m: Modal) {
    |m.inFlight| <= 1 && (m.form.isLoading <==> |m.inFlight| == 1)
  }

  /** Every `onSubmit` in a trace is immediately followed by `onClose`. */
  predicate SubmitThenClose(trace: seq<Emitted>) {
    forall i :: 0 <= i < |trace| && trace[i].Submitted? ==> i + 1 < |trace| && trace[i + 1] == Closed
  }

  /** The `onSubmit` calls of a trace, in order. */
  function Submissions(trace: seq<Emitted>): (s: seq<Emitted>)
    ensures |s| <= |trace|
  {
    if trace == [] then []
    else (if trace[0].Submitted? then [trace[0]] else []) + Submissions(trace[1..])
  }

  function Completions(parse: string -> real, rs: seq<Request>): (s: seq<Emitted>)
    ensures |s| == |rs|
  {
    if rs == [] then [] else [Completion(parse, rs[0])] + Completions(parse, rs[1..])
  }

  // ---------------------------------------------------------------------------
  // Rendering

  /** What the open modal shows that a rule decides. */
  datatype ModalView = ModalView(
    tone: Tone,                 // red header for send, green for receive
    available: Option<real>,    // the "Available: <balance>" line
    balanceDigits: Digits,      // balances are printed with four decimals
    addressField: bool,         // the "To Address" input
    submitDisabled: bool,
    processing: bool)           // "Processing..." instead of "Confirm <type>"

  /** `tokens.find(t => t.symbol === symbol)`: the first entry with that symbol. */
  function FindToken(tokens: seq<TokenBalance>, symbol: string): (r: Option<TokenBalance>)
    ensures r.None? <==> forall i :: 0 <= i < |tokens| ==> tokens[i].symbol != symbol
    ensures r.Some? ==> exists i :: (0 <= i < |tokens| && tokens[i] == r.value
      && tokens[i].symbol == symbol
      && forall j :: 0 <= j < i ==> tokens[j].symbol != symbol)
  {
    if tokens == [] then None
    else if tokens[0].symbol == symbol then Some(tokens[0])
    else
      var r := FindToken(tokens[1..], symbol);
      if r.Some? then
        ghost var i :| 0 <= i < |tokens[1..]| && tokens[1..][i] == r.value && tokens[1..][i].symbol == symbol
          && forall j :: 0 <= j < i ==> tokens[1..][j].symbol != symbol;
        assert tokens[i + 1] == r.value;
        r
      else r
  }

  /** The modal's rendering; `None` is React's `null`. */
  function View(isOpen: bool, mode: Mode, tokens: seq<TokenBalance>, f: Form): (v: Option<ModalView>)
    ensures v.None? <==> !isOpen
    ensures v.Some? ==> v.value.tone == (if mode == Send then Loss else Gain)
    ensures v.Some? ==> (v.value.addressField <==> mode == Send)
    ensures v.Some? ==> (v.value.submitDisabled <==> f.isLoading || Validate(mode, f).Rejected?)
    ensures v.Some? ==> (v.value.processing <==> f.isLoading)
    ensures v.Some? ==> (v.value.available.Some? ==> mode == Send)
  {
    if !isOpen then None
    else
      var found := FindToken(tokens, f.selectedToken);
      Some(ModalView(
        if mode == Send then Loss else Gain,
        if mode == Send && found.Some? then Some(found.value.balance) else None,
        Fixed(4),
        mode == Send,
        SubmitDisabled(mode, f),
        f.isLoading))
  }

  // ---------------------------------------------------------------------------
  // Properties

  /** The modal starts empty, on SOL, not loading, with the button disabled in both modes. */
  lemma InitialStateDisablesSubmit(mode: Mode)
    ensures InitialModal.form.amount == "" && InitialModal.form.address == ""
    ensures InitialModal.form.selectedToken == "SOL" && !InitialModal.form.isLoading
    ensures InitialModal.inFlight == []
    ensures SubmitDisabled(mode, InitialModal.form)
  {
  }

  /** An empty amount makes a submission a silent no-op in either mode. */
  lemma EmptyAmountIsNoOp(mode: Mode, parse: string -> real, m: Modal)
    requires m.form.amount == ""
    ensures Step(mode, parse, m, Submit) == StepResult(m, [])
  {
  }

  /** In send mode an empty address makes a submission a no-op whatever the amount. */
  lemma SendWithoutAddressIsNoOp(parse: string -> real, m: Modal)
    requires m.form.address == ""
    ensures Step(Send, parse, m, Submit) == StepResult(m, [])
    ensures Validate(Send, m.form).Rejected?
  {
  }

  /** In receive mode every non-empty amount passes the gate, whatever the address. */
  lemma ReceiveAcceptsAnyNonEmptyAmount(parse: string -> real, m: Modal)
    requires m.form.amount != ""
    ensures Validate(Receive, m.form) == Accepted
    ensures Step(Receive, parse, m, Submit).next.form.isLoading
  {
  }

  /** The button is enabled exactly when nothing is loading and the gate would accept. */
  lemma ButtonMirrorsGate(mode: Mode, f: Form)
    ensures !SubmitDisabled(mode, f) <==> !f.isLoading && Validate(mode, f).Accepted?
  {
  }

  /** The modal renders nothing while closed; the "Available" line shows the
      balance of the first token with the selected symbol, in send mode only. */
  lemma ViewRules(isOpen: bool, mode: Mode, tokens: seq<TokenBalance>, f: Form)
    ensures View(isOpen, mode, tokens, f).None? <==> !isOpen
    ensures isOpen ==>
      (View(isOpen, mode, tokens, f).value.available.Some? <==>
        mode == Send && exists i :: 0 <= i < |tokens| && tokens[i].symbol == f.selectedToken)
    ensures isOpen && View(isOpen, mode, tokens, f).value.available.Some? ==>
      exists i :: (0 <= i < |tokens| && tokens[i].symbol == f.selectedToken
        && View(isOpen, mode, tokens, f).value.available.value == tokens[i].balance
        && forall j :: 0 <= j < i ==> tokens[j].symbol != f.selectedToken)
    ensures isOpen ==> (View(isOpen, mode, tokens, f).value.submitDisabled <==>
      f.isLoading || Validate(mode, f).Rejected?)
  {
  }

  /** Through the button, a submission while one is pending does nothing, and a
      submission through an enabled button is always accepted. */
  lemma ButtonGuardsResubmission(mode: Mode, parse: string -> real, m: Modal, e: Event)
    requires SingleFlight(m)
    ensures e.Submit? && m.inFlight != [] ==> ButtonStep(mode, parse, m, e) == StepResult(m, [])
    ensures e.Submit? && !SubmitDisabled(mode, m.form) ==>
      ButtonStep(mode, parse, m, e).next.inFlight == [Capture(m.form)]
  {
  }

  /** From the initial state, every state reached through the button has at most one settlement pending. */
  lemma ReachableHasSingleFlight(mode: Mode, parse: string -> real, events: seq<Event>)
    ensures SingleFlight(ButtonRun(mode, parse, InitialModal, events).next)
  {
  }

  lemma SubmitThenCloseAppend(a: seq<Emitted>, b: seq<Emitted>)
    requires SubmitThenClose(a) && SubmitThenClose(b)
    requires a == [] || a[|a| - 1] == Closed
    ensures SubmitThenClose(a + b)
  {
  }

  /** Over any run, even one that bypasses the button, each `onSubmit` is
      followed at once by `onClose`, and every step's output ends in `onClose`. */
  lemma {:induction false} RunPairsSubmitWithClose(mode: Mode, parse: string -> real, m: Modal, events: seq<Event>)
    ensures SubmitThenClose(Run(mode, parse, m, events).emitted)
    ensures Run(mode, parse, m, events).emitted == [] ||
      Run(mode, parse, m, events).emitted[|Run(mode, parse, m, events).emitted| - 1] == Closed
    decreases |events|
  {
    if events != [] {
      var s := Step(mode, parse, m, events[0]);
      var rest := Run(mode, parse, s.next, events[1..]);
      RunPairsSubmitWithClose(mode, parse, s.next, events[1..]);
      assert SubmitThenClose(s.emitted);
      assert s.emitted == [] || s.emitted[|s.emitted| - 1] == Closed;
      SubmitThenCloseAppend(s.emitted, rest.emitted);
      assert Run(mode, parse, m, events).emitted == s.emitted + rest.emitted;
    }
  }

  lemma {:induction false} SubmissionsAppend(a: seq<Emitted>, b: seq<Emitted>)
    ensures Submissions(a + b) == Submissions(a) + Submissions(b)
    decreases |a|
  {
    if a != [] {
      assert (a + b)[1..] == a[1..] + b;
      SubmissionsAppend(a[1..], b);
    } else {
      assert a + b == b;
    }
  }

  lemma {:induction false} CompletionsAppend(parse: string -> real, a: seq<Request>, b: seq<Request>)
    ensures Completions(parse, a + b) == Completions(parse, a) + Completions(parse, b)
    decreases |a|
  {
    if a != [] {
      assert (a + b)[1..] == a[1..] + b;
      CompletionsAppend(parse, a[1..], b);
    } else {
      assert a + b == b;
    }
  }

  /** One step either enqueues the captured request or completes the oldest one:
      requests in flight plus newly accepted ones equal the `onSubmit` calls
      made plus the requests still in flight. */
  lemma StepConservesRequests(mode: Mode, parse: string -> real, m: Modal, e: Event)
    ensures Completions(parse, m.inFlight + Enqueued(mode, m, e)) ==
      Submissions(Step(mode, parse, m, e).emitted) + Completions(parse, Step(mode, parse, m, e).next.inFlight)
  {
    var s := Step(mode, parse, m, e);
    if e.DelayElapsed? && m.inFlight != [] {
      var c := Completion(parse, m.inFlight[0]);
      assert m.inFlight + Enqueued(mode, m, e) == m.inFlight;
      assert Completions(parse, m.inFlight) == [c] + Completions(parse, m.inFlight[1..]);
      assert s.emitted == [c, Closed];
      assert [c, Closed][1..] == [Closed];
      assert Submissions([Closed]) == [];
      assert Submissions(s.emitted) == [c];
    } else {
      assert Submissions(s.emitted) == [];
      assert m.inFlight + Enqueued(mode, m, e) == s.next.inFlight;
    }
  }

  /** Two conservation facts about consecutive stretches of a run combine into one. */
  lemma ConservationChains(parse: string -> real, inFlight: seq<Request>, enq: seq<Request>, acc: seq<Request>,
                           e1: seq<Emitted>, mid: seq<Request>, e2: seq<Emitted>, last: seq<Request>)
    requires Completions(parse, inFlight + enq) == Submissions(e1) + Completions(parse, mid)
    requires Completions(parse, mid + acc) == Submissions(e2) + Completions(parse, last)
    ensures Completions(parse, inFlight + (enq + acc)) == Submissions(e1 + e2) + Completions(parse, last)
  {
    CompletionsRegroup(parse, inFlight, enq, acc, Submissions(e1), mid);
    SubmissionsAppend(e1, e2);
    ConcatAssociates(Submissions(e1), Submissions(e2), Completions(parse, last));
  }

  lemma CompletionsRegroup(parse: string -> real, inFlight: seq<Request>, enq: seq<Request>, acc: seq<Request>,
                           s1: seq<Emitted>, mid: seq<Request>)
    requires Completions(parse, inFlight + enq) == s1 + Completions(parse, mid)
    ensures Completions(parse, inFlight + (enq + acc)) == s1 + Completions(parse, mid + acc)
  {
    ConcatAssociates(inFlight, enq, acc);
    CompletionsAppend(parse, inFlight + enq, acc);
    CompletionsAppend(parse, mid, acc);
    ConcatAssociates(s1, Completions(parse, mid), Completions(parse, acc));
  }

  lemma ConcatAssociates<T>(a: seq<T>, b: seq<T>, c: seq<T>)
    ensures (a + b) + c == a + (b + c)
  {
  }

  /** Every accepted submission yields exactly one `onSubmit`, in acceptance
      order, carrying the values captured when it was accepted; the ones not
      yet settled are exactly those still in flight. */
  lemma {:induction false} RunConservesRequests(mode: Mode, parse: string -> real, m: Modal, events: seq<Event>)
    ensures Completions(parse, m.inFlight + AcceptedAlong(mode, parse, m, events)) ==
      Submissions(Run(mode, parse, m, events).emitted) + Completions(parse, Run(mode, parse, m, events).next.inFlight)
    decreases |events|
  {
    if events == [] {
      assert m.inFlight + [] == m.inFlight;
    } else {
      var e := events[0];
      var s := Step(mode, parse, m, e);
      var rest := Run(mode, parse, s.next, events[1..]);
      var acc := AcceptedAlong(mode, parse, s.next, events[1..]);
      var enq := Enqueued(mode, m, e);
      assert AcceptedAlong(mode, parse, m, events) == enq + acc;
      StepConservesRequests(mode, parse, m, e);
      RunConservesRequests(mode, parse, s.next, events[1..]);
      ConservationChains(parse, m.inFlight, enq, acc, s.emitted, s.next.inFlight, rest.emitted, rest.next.inFlight);
      assert Run(mode, parse, m, events) == StepResult(rest.next, s.emitted + rest.emitted);
    }
  }

  /** From the initial state, once nothing is in flight, the `onSubmit` calls are
      exactly the completions of the accepted submissions, one each, in order. */
  lemma SettledRunSubmitsEachAcceptedOnce(mode: Mode, parse: string -> real, events: seq<Event>)
    requires Run(mode, parse, InitialModal, events).next.inFlight == []
    ensures Submissions(Run(mode, parse, InitialModal, events).emitted) ==
      Completions(parse, AcceptedAlong(mode, parse, InitialModal, events))
  {
    RunConservesRequests(mode, parse, InitialModal, events);
    assert InitialModal.inFlight + AcceptedAlong(mode, parse, InitialModal, events)
      == AcceptedAlong(mode, parse, InitialModal, events);
    var r := Run(mode, parse, InitialModal, events);
    assert Submissions(r.emitted) + Completions(parse, []) == Submissions(r.emitted);
  }

  /** A send of "1.5" SOL to ABC123 emits `onSubmit(1.5, "SOL", "ABC123")`
      once the delay elapses, then `onClose`, and leaves the form empty. */
  lemma SendExample(parse: string -> real)
    requires parse("1.5") == 1.5
    ensures var r := Run(Send, parse, InitialModal,
      [EditAmount("1.5"), EditAddress("ABC123"), Submit, DelayElapsed]);
      && r.emitted == [Submitted(1.5, "SOL", "ABC123"), Closed]
      && r.next == Modal(Form("", "SOL", "", false), [])
  {
  }
}
