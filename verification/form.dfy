/** The form submitter: a recipient email, a map of named inputs, a busy
    flag and an error message around a single send. The send is not
    modelled; its result arrives as an `Outcome`, and the asynchronous
    handler is split at its one suspension point into `BeginSubmit` (up to
    issuing the send) and `Settle` (after the send resolves). */
module Form {
  import opened Wrappers
  import opened Types

  /** The one message shown for every failed send, whatever the cause. */
  const SubmitErrorMessage: string := "An error occurred while submitting the form."

  /** How the send resolved. */
  datatype Outcome = Delivered | Failed

  /** What the send is given: the recipient and the input map. */
  datatype Request = Request(to: string, formData: FormData)

  datatype State = State(
    email: string,
    formData: FormData,
    isSending: bool,
    error: Option<string>)

  /** The submitter as first shown: no email, the two inputs "name" and
      "message" both empty, not sending, no error. */
  function Initial(): (s: State)
    ensures s.email == ""
    ensures s.formData.Keys == {"name", "message"}
    ensures forall k :: k in s.formData ==> s.formData[k] == ""
    ensures !s.isSending && s.error == None
  {
    State("", map["name" := "", "message" := ""], false, None)
  }

  /** An edit to the named input: that key now holds `value`, every other
      key keeps its value, and no key disappears. */
  function InputChange(s: State, name: string, value: string): (s': State)
    ensures s'.formData.Keys == s.formData.Keys + {name}
    ensures name in s'.formData && s'.formData[name] == value
    ensures forall k :: k in s.formData && k != name ==> s'.formData[k] == s.formData[k]
    ensures s'.email == s.email && s'.isSending == s.isSending && s'.error == s.error
  {
    s.(formData := s.formData[name := value])
  }

  /** An edit to the recipient email. */
  function EmailChange(s: State, value: string): (s': State)
    ensures s'.email == value
    ensures s' == s.(email := value)
  {
    s.(email := value)
  }

  /** The submit handler up to the send: busy, error cleared, and the send
      issued with the current email and input map exactly as they are. The
      handler itself does not look at the busy flag. */
  function BeginSubmit(s: State): (r: (State, Request))
    ensures r.0.isSending && r.0.error == None
    ensures r.0.email == s.email && r.0.formData == s.formData
    ensures r.1.to == s.email && r.1.formData == s.formData
  {
    (s.(isSending := true, error := None), Request(s.email, s.formData))
  }

  /** The rest of the handler once the send resolves: never busy afterwards,
      the fixed message on failure, the error left alone on success. Inputs
      edited meanwhile are kept. */
  function Settle(s: State, outcome: Outcome): (s': State)
    ensures !s'.isSending
    ensures outcome == Failed ==> s'.error == Some(SubmitErrorMessage)
    ensures outcome == Delivered ==> s'.error == s.error
    ensures s'.email == s.email && s'.formData == s.formData
  {
    var s1 := s.(isSending := false);
    if outcome == Failed then s1.(error := Some(SubmitErrorMessage)) else s1
  }

  /** One whole submission with nothing happening in between: afterwards not
      busy, and an error exactly when the send failed. */
  lemma SubmitAtomically(s: State, outcome: Outcome)
    ensures var (mid, req) := BeginSubmit(s);
      && req == Request(s.email, s.formData)
      && !Settle(mid, outcome).isSending
      && (Settle(mid, outcome).error.Some? <==> outcome == Failed)
      && (outcome == Failed ==> Settle(mid, outcome).error == Some(SubmitErrorMessage))
      && Settle(mid, outcome).email == s.email
      && Settle(mid, outcome).formData == s.formData
  {
  }

  /** Calling the handler a second time while the first send is pending is
      not refused by the handler: a second, identical send is issued. */
  lemma HandlerDoesNotCheckBusy(s: State)
    ensures BeginSubmit(s).0.isSending
    ensures BeginSubmit(BeginSubmit(s).0).1 == BeginSubmit(s).1
  {
  }

  /** What can happen on the page: typing, pressing the submit button, and a
      pending send resolving. */
  datatype Event =
    | TypeEmail(text: string)
    | TypeInput(name: string, text: string)
    | PressSubmit
    | Resolve(outcome: Outcome)

  /** The page over time: the state, every send issued so far, and how many
      of them have resolved (they resolve in the order issued). */
  datatype Session = Session(state: State, sent: seq<Request>, settled: nat)

  /** The browser's own check before it lets the form submit: the email
      input is `required` and of type `email`, so an empty email is refused
      and so is one the browser does not take for an address. That second
      judgement is the parameter `acceptsEmail`. */
  predicate BrowserAllowsSubmit(email: string, acceptsEmail: string -> bool) {
    email != "" && acceptsEmail(email)
  }

  /** One event. The button is disabled while busy, and the browser blocks
      the submission of an email it refuses, so in either case pressing it
      does nothing; a resolution with no send pending does nothing. */
  function SessionStep(ss: Session, e: Event, acceptsEmail: string -> bool): Session {
    match e
    case TypeEmail(v) => ss.(state := EmailChange(ss.state, v))
    case TypeInput(k, v) => ss.(state := InputChange(ss.state, k, v))
    case PressSubmit =>
      if ss.state.isSending || !BrowserAllowsSubmit(ss.state.email, acceptsEmail) then ss
      else
        var (s', req) := BeginSubmit(ss.state);
        Session(s', ss.sent + [req], ss.settled)
    case Resolve(o) =>
      if ss.settled < |ss.sent| then ss.(state := Settle(ss.state, o), settled := ss.settled + 1)
      else ss
  }

  function RunSession(ss: Session, events: seq<Event>, acceptsEmail: string -> bool): Session
    decreases |events|
  {
    if |events| == 0 then ss
    else RunSession(SessionStep(ss, events[0], acceptsEmail), events[1..], acceptsEmail)
  }

  /** Every send in `sent` went to an email the browser let through. */
  predicate AllSentAllowed(sent: seq<Request>, acceptsEmail: string -> bool) {
    forall i :: 0 <= i < |sent| ==> BrowserAllowsSubmit(sent[i].to, acceptsEmail)
  }

  /** Every send the page issues goes to an email the browser let through. */
  lemma {:induction false} SentEmailsAllowed(ss: Session, events: seq<Event>, acceptsEmail: string -> bool)
    requires AllSentAllowed(ss.sent, acceptsEmail)
    ensures AllSentAllowed(RunSession(ss, events, acceptsEmail).sent, acceptsEmail)
    decreases |events|
  {
    if |events| > 0 {
      var ss1 := SessionStep(ss, events[0], acceptsEmail);
      if ss1.sent != ss.sent {
        assert events[0] == PressSubmit;
        assert ss1.sent == ss.sent + [Request(ss.state.email, ss.state.formData)];
        assert BrowserAllowsSubmit(ss.state.email, acceptsEmail);
      }
      assert AllSentAllowed(ss1.sent, acceptsEmail);
      SentEmailsAllowed(ss1, events[1..], acceptsEmail);
    }
  }

  /** The busy flag tracks the pending send: busy exactly when one send is
      pending, never more than one pending, and no error shown while busy. */
  predicate SessionInv(ss: Session) {
    && ss.settled <= |ss.sent|
    && |ss.sent| - ss.settled == (if ss.state.isSending then 1 else 0)
    && (ss.state.isSending ==> ss.state.error == None)
  }

  function Start(): (ss: Session)
    ensures ss.state == Initial() && ss.sent == [] && ss.settled == 0
  {
    Session(Initial(), [], 0)
  }

  /** Any sequence of events from any state satisfying the invariant keeps
      it: with the button disabled while busy, at most one send is ever in
      flight, and every send issued carries the email and inputs of the
      moment the button was pressed. */
  lemma {:induction false} AtMostOneInFlight(ss: Session, events: seq<Event>, acceptsEmail: string -> bool)
    requires SessionInv(ss)
    ensures SessionInv(RunSession(ss, events, acceptsEmail))
    ensures |ss.sent| <= |RunSession(ss, events, acceptsEmail).sent|
    ensures RunSession(ss, events, acceptsEmail).sent[..|ss.sent|] == ss.sent
    decreases |events|
  {
    if |events| > 0 {
      var ss1 := SessionStep(ss, events[0], acceptsEmail);
      assert SessionInv(ss1);
      assert ss1.sent[..|ss.sent|] == ss.sent;
      AtMostOneInFlight(ss1, events[1..], acceptsEmail);
      var r := RunSession(ss1, events[1..], acceptsEmail);
      assert r.sent[..|ss.sent|] == r.sent[..|ss1.sent|][..|ss.sent|];
    }
  }

  /** The page as first shown satisfies the invariant and has sent nothing,
      so every reachable page has at most one send in flight, and every send
      it has issued went to an email the browser accepted. */
  lemma ReachableAtMostOneInFlight(events: seq<Event>, acceptsEmail: string -> bool)
    ensures var ss := RunSession(Start(), events, acceptsEmail);
      && |ss.sent| - ss.settled <= 1
      && (ss.state.isSending <==> ss.settled < |ss.sent|)
      && AllSentAllowed(ss.sent, acceptsEmail)
  {
    AtMostOneInFlight(Start(), events, acceptsEmail);
    SentEmailsAllowed(Start(), events, acceptsEmail);
  }
}
