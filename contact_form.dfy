/** The submit handler of static/js/contact.js and its `showMessage` helper.

    The page's contact form is an object whose state the handler changes in
    place: the submit button's `disabled` flag and label, the values of the
    three fields, and the feedback messages appended to the form. The awaited
    `fetch('/send-message', ...)` and `response.json()` are not modelled; their
    combined result is an `Outcome` parameter: either the reply's `success`
    value, or an exception anywhere in the `try` block. */
module ContactForm {
  import MessageEndpoint

  // ---------------------------------------------------------------------------
  // Constants of contact.js

  const Endpoint: string := "/send-message"
  const PostMethod: string := "POST"
  const JsonContentType: string := "application/json"
  const SendingLabel: string := "Sending..."
  const SuccessText: string := "Message sent successfully! I will get back to you soon."
  const FailureText: string := "Failed to send message. Please try again."
  const ErrorText: string := "An error occurred. Please try again later."
  const SuccessKind: string := "success"
  const ErrorKind: string := "error"
  const MessageClass: string := "form-message"

  // ---------------------------------------------------------------------------
  // Values

  /** The values of the `name`, `email` and `message` fields, as typed. */
  datatype FormData = FormData(name: string, email: string, message: string)

  /** What `contactForm.reset()` puts back, assuming the page's fields have no
      default values of their own. */
  const ClearedFields: FormData := FormData("", "", "")

  /** The request `fetch` is asked to send; its body is `JSON.stringify` of the
      three field values, modelled by the values themselves. */
  datatype Request = Request(path: string, httpMethod: string, contentType: string, body: FormData)

  /** How the awaited part of the handler ended: a reply whose `success` value
      was truthy or not, or an exception anywhere in the `try` block (from
      `fetch`, from `response.json()`, or from reading `success` of a `null`
      reply). */
  datatype Outcome = Replied(success: bool) | Threw

  /** The two colour schemes `showMessage` applies. */
  datatype Style = SuccessStyle | ErrorStyle

  /** A feedback element: `id` tells apart the elements created by different
      calls, which the removal timers refer to. */
  datatype Message = Message(id: nat, text: string, className: string, style: Style)

  /** Everything the handler reads or changes on the page. */
  datatype FormState = FormState(
    disabled: bool,
    buttonText: string,
    fields: FormData,
    messages: seq<Message>,
    nextId: nat)

  // ---------------------------------------------------------------------------
  // Specification of showMessage

  /** The class attribute `form-message <type>`. */
  function ClassName(kind: string): (c: string)
    ensures |c| == |MessageClass| + 1 + |kind|
    ensures c[..|MessageClass|] == MessageClass
    ensures c[|MessageClass|] == ' ' && c[|MessageClass| + 1..] == kind
  {
    MessageClass + " " + kind
  }

  /** Only the kind "success" gets the success colours; every other kind,
      including unexpected ones, gets the error colours. */
  function StyleFor(kind: string): (st: Style)
    ensures st == SuccessStyle <==> kind == SuccessKind
  {
    if kind == SuccessKind then SuccessStyle else ErrorStyle
  }

  /** The element `showMessage(text, kind)` creates. */
  function NewMessage(id: nat, text: string, kind: string): (m: Message)
    ensures m.id == id && m.text == text
    ensures m.className == MessageClass + " " + kind
    ensures m.style == SuccessStyle <==> kind == SuccessKind
  {
    Message(id, text, ClassName(kind), StyleFor(kind))
  }

  /** `document.querySelector('.form-message')` finds the first message, which
      is removed; the new one is then appended at the end of the form. */
  function Shown(s: FormState, text: string, kind: string): (t: FormState)
    ensures |t.messages| >= 1 && t.messages[|t.messages| - 1] == NewMessage(s.nextId, text, kind)
    ensures |s.messages| <= 1 ==> t.messages == [NewMessage(s.nextId, text, kind)]
    ensures |t.messages| == if s.messages == [] then 1 else |s.messages|
    ensures t.disabled == s.disabled && t.buttonText == s.buttonText && t.fields == s.fields
  {
    var kept := if s.messages == [] then [] else s.messages[1..];
    s.(messages := kept + [NewMessage(s.nextId, text, kind)], nextId := s.nextId + 1)
  }

  /** The element with the given id, if still on the page, is removed (the
      timer that fades a message out and removes it after 5.5 seconds). */
  function Expired(s: FormState, id: nat): (t: FormState)
    ensures forall m :: m in t.messages <==> m in s.messages && m.id != id
    ensures t.disabled == s.disabled && t.buttonText == s.buttonText && t.fields == s.fields
    ensures t.nextId == s.nextId
  {
    s.(messages := WithoutId(s.messages, id))
  }

  function WithoutId(ms: seq<Message>, id: nat): (r: seq<Message>)
    ensures |r| <= |ms|
    ensures forall m :: m in r <==> m in ms && m.id != id
  {
    if ms == [] then []
    else if ms[0].id == id then WithoutId(ms[1..], id)
    else [ms[0]] + WithoutId(ms[1..], id)
  }

  // ---------------------------------------------------------------------------
  // Specification of the submit handler

  /** The request built from the field values at the moment of submission:
      the raw values, neither trimmed nor validated. */
  function RequestFor(s: FormState): (req: Request)
    ensures req.path == Endpoint && req.httpMethod == PostMethod
    ensures req.contentType == JsonContentType
    ensures req.body.name == s.fields.name && req.body.email == s.fields.email
    ensures req.body.message == s.fields.message
  {
    Request(Endpoint, PostMethod, JsonContentType, s.fields)
  }

  /** The state while the request is in flight. */
  function Sending(s: FormState): (t: FormState)
    ensures t.disabled && t.buttonText == SendingLabel
    ensures t.fields == s.fields && t.messages == s.messages && t.nextId == s.nextId
  {
    s.(disabled := true, buttonText := SendingLabel)
  }

  /** The text and kind of the message shown for each outcome. */
  function Feedback(o: Outcome): (fb: (string, string))
    ensures fb.1 == SuccessKind <==> o == Replied(true)
    ensures fb.1 == SuccessKind || fb.1 == ErrorKind
    ensures fb.0 == SuccessText <==> o == Replied(true)
    ensures fb.0 == FailureText <==> o == Replied(false)
    ensures fb.0 == ErrorText <==> o == Threw
  {
    match o
    case Replied(true) => (SuccessText, SuccessKind)
    case Replied(false) => (FailureText, ErrorKind)
    case Threw => (ErrorText, ErrorKind)
  }

  /** The `try`/`catch`/`finally` after the request: one message for the
      outcome, a form reset on success only, and the button restored to
      `originalText` whatever happened. */
  function Finished(s: FormState, o: Outcome, originalText: string): (t: FormState)
    ensures !t.disabled && t.buttonText == originalText
    ensures t.fields == if o == Replied(true) then ClearedFields else s.fields
    ensures |t.messages| >= 1 && t.messages[|t.messages| - 1] == NewMessage(s.nextId, Feedback(o).0, Feedback(o).1)
    ensures |s.messages| <= 1 ==> |t.messages| == 1
    ensures t.nextId == s.nextId + 1
  {
    var (text, kind) := Feedback(o);
    var shown := Shown(s, text, kind);
    var after := if o == Replied(true) then shown.(fields := ClearedFields) else shown;
    after.(disabled := false, buttonText := originalText)
  }

  /** One whole submission: the state before, the outcome of the request, the
      state after. */
  function Submitted(s: FormState, o: Outcome): (t: FormState)
    ensures !t.disabled && t.buttonText == s.buttonText
    ensures t.fields == if o == Replied(true) then ClearedFields else s.fields
    ensures |s.messages| <= 1 ==> |t.messages| == 1
    ensures |t.messages| >= 1 && t.messages[|t.messages| - 1].text == Feedback(o).0
    ensures t.messages[|t.messages| - 1].style == (if o == Replied(true) then SuccessStyle else ErrorStyle)
  {
    Finished(Sending(s), o, s.buttonText)
  }

  // ---------------------------------------------------------------------------
  // Properties of a submission

  /** The form is cleared exactly when the reply's `success` is truthy. */
  lemma ResetOnlyOnSuccess(s: FormState, o: Outcome)
    requires s.fields != ClearedFields
    ensures Submitted(s, o).fields == ClearedFields <==> o == Replied(true)
  {
  }

  /** Each outcome leaves exactly one message, with its own text and kind. */
  lemma OneMessagePerOutcome(s: FormState, o: Outcome)
    requires |s.messages| <= 1
    ensures Submitted(s, o).messages == [NewMessage(s.nextId, Feedback(o).0, Feedback(o).1)]
  {
  }

  /** The page invariant: at most one feedback message, and every message's id
      was handed out before. */
  ghost predicate PageInvariant(s: FormState)
  {
    |s.messages| <= 1 && forall m :: m in s.messages ==> m.id < s.nextId
  }

  /** The events that change the page after it is loaded. */
  datatype Event = Submit(outcome: Outcome) | Expire(id: nat)

  function Step(s: FormState, e: Event): FormState
  {
    match e
    case Submit(o) => Submitted(s, o)
    case Expire(id) => Expired(s, id)
  }

  function Run(s: FormState, events: seq<Event>): FormState
    decreases events
  {
    if events == [] then s else Run(Step(s, events[0]), events[1..])
  }

  lemma StepKeepsInvariant(s: FormState, e: Event)
    requires PageInvariant(s)
    ensures PageInvariant(Step(s, e))
  {
    match e
    case Submit(o) =>
      assert Submitted(s, o).messages == [NewMessage(s.nextId, Feedback(o).0, Feedback(o).1)];
    case Expire(id) =>
  }

  /** Whatever sequence of submissions and expiries happens, at most one
      feedback message is ever on the page, and the button keeps its label
      and is never left disabled. */
  lemma {:induction false} RunKeepsInvariant(s: FormState, events: seq<Event>)
    requires PageInvariant(s) && !s.disabled
    ensures PageInvariant(Run(s, events))
    ensures !Run(s, events).disabled && Run(s, events).buttonText == s.buttonText
    decreases events
  {
    if events != [] {
      StepKeepsInvariant(s, events[0]);
      RunKeepsInvariant(Step(s, events[0]), events[1..]);
    }
  }

  /** A timer that fires for a message which a later message replaced does not
      remove the later one. */
  lemma StaleExpiryKeepsCurrentMessage(s: FormState, o: Outcome, m: Message)
    requires PageInvariant(s) && m in s.messages
    ensures Expired(Submitted(s, o), m.id).messages == Submitted(s, o).messages
  {
    var t := Submitted(s, o);
    assert t.messages == [NewMessage(s.nextId, Feedback(o).0, Feedback(o).1)];
    assert t.messages[0].id != m.id;
    assert WithoutId(t.messages, m.id) == [t.messages[0]] + WithoutId([], m.id);
  }

  /** With the `/send-message` route of app.py answering and the network
      delivering its reply, every submission clears the form and shows the
      success message. */
  lemma EndpointReplyMeansSuccess(s: FormState)
    requires |s.messages| <= 1
    ensures var o := Replied(MessageEndpoint.SendMessage(RequestFor(s).body).success);
      Submitted(s, o).fields == ClearedFields &&
      Submitted(s, o).messages == [NewMessage(s.nextId, SuccessText, SuccessKind)]
  {
  }

  // ---------------------------------------------------------------------------
  // The page objects

  /** The `submit` event the handler receives. */
  class SubmitEvent {
    var defaultPrevented: bool

    constructor ()
      ensures !defaultPrevented
    {
      defaultPrevented := false;
    }

    /** `e.preventDefault()`: the browser will not submit the form itself. */
    method PreventDefault()
      modifies this
      ensures defaultPrevented
    {
      defaultPrevented := true;
    }
  }

  /** The contact form with its submit button, its fields and the feedback
      messages appended to it. */
  class ContactPage {
    var disabled: bool
    var buttonText: string
    var name: string
    var email: string
    var message: string
    var messages: seq<Message>
    var nextId: nat

    function State(): FormState
      reads this
    {
      FormState(disabled, buttonText, FormData(name, email, message), messages, nextId)
    }

    ghost predicate Valid()
      reads this
    {
      PageInvariant(State())
    }

    /** The page as loaded: an enabled button with its label, fields holding
        whatever the browser restored, no message. */
    constructor (buttonLabel: string, fields: FormData)
      ensures Valid()
      ensures State() == FormState(false, buttonLabel, fields, [], 0)
    {
      disabled := false;
      buttonText := buttonLabel;
      name, email, message := fields.name, fields.email, fields.message;
      messages := [];
      nextId := 0;
    }

    /** `showMessage(text, kind)`. */
    method ShowMessage(text: string, kind: string)
      requires Valid()
      modifies this
      ensures Valid()
      ensures State() == Shown(old(State()), text, kind)
    {
      var kept := if messages == [] then [] else messages[1..];
      messages := kept + [NewMessage(nextId, text, kind)];
      nextId := nextId + 1;
    }

    /** The fade-out timer of the message with the given id has run out. */
    method ExpireMessage(id: nat)
      requires Valid()
      modifies this
      ensures Valid()
      ensures State() == Expired(old(State()), id)
    {
      messages := WithoutId(messages, id);
    }

    /** `contactForm.reset()`. */
    method Reset()
      modifies this
      ensures State() == old(State()).(fields := ClearedFields)
    {
      name, email, message := "", "", "";
    }

    /** The handler up to the `await`: cancel the browser's own submission,
        remember the label, read the three values, disable the button and
        show "Sending...". Returns the remembered label and the request. */
    method BeginSubmit(e: SubmitEvent) returns (originalText: string, req: Request)
      requires Valid()
      modifies this, e
      ensures Valid()
      ensures e.defaultPrevented
      ensures originalText == old(buttonText)
      ensures req == RequestFor(old(State()))
      ensures State() == Sending(old(State()))
      ensures disabled && buttonText == SendingLabel
    {
      e.PreventDefault();
      originalText := buttonText;
      var formData := FormData(name, email, message);
      disabled := true;
      buttonText := SendingLabel;
      req := Request(Endpoint, PostMethod, JsonContentType, formData);
    }

    /** The handler after the `await`: the `try`, `catch` and `finally` blocks. */
    method FinishSubmit(o: Outcome, originalText: string)
      requires Valid()
      modifies this
      ensures Valid()
      ensures State() == Finished(old(State()), o, originalText)
      ensures !disabled && buttonText == originalText
    {
      match o {
        case Replied(success) =>
          if success {
            ShowMessage(SuccessText, SuccessKind);
            Reset();
          } else {
            ShowMessage(FailureText, ErrorKind);
          }
        case Threw =>
          ShowMessage(ErrorText, ErrorKind);
      }
      disabled := false;
      buttonText := originalText;
    }

    /** One run of the submit listener, with the request's outcome given. */
    method Submit(e: SubmitEvent, o: Outcome) returns (req: Request)
      requires Valid()
      modifies this, e
      ensures Valid()
      ensures e.defaultPrevented
      ensures req == RequestFor(old(State()))
      ensures State() == Submitted(old(State()), o)
    {
      var originalText;
      originalText, req := BeginSubmit(e);
      FinishSubmit(o, originalText);
    }
  }
}
