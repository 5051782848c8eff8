/** The chat assistant (components/Chatbot.tsx): one press of "send" is one
    atomic transition of the widget's state. `Send` specifies it on values and
    states what each branch does; `ChatWidget.HandleSend` performs it step by
    step on the widget's state cells and is proved to agree with `Send`. */
module Chatbot {
  import opened Wrappers
  import opened Text
  import Gemini

  /** Who a visible chat bubble belongs to. */
  datatype Role = User | Bot

  datatype Message = Message(role: Role, text: string)

  /** The arguments of a `bookEnquiry` call, as the model sent them. */
  type Args = map<string, string>

  /** One entry of the `upliftr_enquiries` log: the call's arguments plus a
      `timestamp`. */
  type Lead = map<string, string>

  const Welcome: string :=
    "Welcome to " + "Upliftr. I\U{2019}m here " + "to help you " + "elevate your " +
    "brand. Would you " + "like to book a " + "consultation or " + "hear about our " +
    "services?"
  const Courtesy: string :=
    "You're most " + "welcome \U{1F60A} Our " + "team has your " + "details and will " +
    "reach out " + "shortly. How can " + "i assist you more?"
  const Fallback: string :=
    "I'm here to help. " + "What else can I " + "do for you?"
  const Apology: string :=
    "I hit a snag, but " + "don't worry\U{2014}you " + "can also reach us " + "directly at " +
    "hello@upliftr.agen" + "cy."
  const TimestampKey: string := "timestamp"

  /** `!input.trim()`: the input holds nothing but whitespace. */
  predicate IsBlank(input: string)
    ensures IsBlank(input) <==> forall i :: 0 <= i < |input| ==> IsJsWhitespace(input[i])
  {
    Trim(input) == ""
  }

  /** `${args.key}`: a present key prints its value, a missing one prints
      as `undefined`. */
  function Field(args: Args, key: string): (text: string)
    ensures key in args ==> text == args[key]
    ensures key !in args ==> text == "undefined"
  {
    if key in args then args[key] else "undefined"
  }

  /** The confirmation shown and remembered after a booking: a template
      with the client's name, the project type and the email filled in. */
  function Confirmation(args: Args): (text: string)
    ensures |text| >= |ConfirmationTemplate[0]|
    ensures text[..|ConfirmationTemplate[0]|] == ConfirmationTemplate[0]
  {
    Interpolate(ConfirmationTemplate, ConfirmationValues(args))
  }

  const ConfirmationTemplate: seq<string> := [
    "Perfect! I've " + "booked your " + "enquiry for ",
    ". Our strategy " + "team will review " + "your ",
    " request and " + "reach out to ",
    " within 24 " + "hours."
  ]

  function ConfirmationValues(args: Args): (values: seq<string>)
    ensures |values| == 3
  {
    [Field(args, "fullName"), Field(args, "projectType"), Field(args, "email")]
  }

  /** The confirmation names the client, the project type and the email the
      enquiry was booked under. */
  lemma ConfirmationMentionsBooking(args: Args)
    ensures IsInfix(Field(args, "fullName"), Confirmation(args))
    ensures IsInfix(Field(args, "projectType"), Confirmation(args))
    ensures IsInfix(Field(args, "email"), Confirmation(args))
  {
    var values := ConfirmationValues(args);
    InterpolatedValue(ConfirmationTemplate, values, 0);
    InterpolatedValue(ConfirmationTemplate, values, 1);
    InterpolatedValue(ConfirmationTemplate, values, 2);
  }

  /** `response.text || fallback`: a missing or empty reply text is replaced
      by the fixed fallback, so the bot never shows an empty bubble. */
  function BotText(text: Option<string>): (shown: string)
    ensures shown != ""
    ensures text.Some? && text.value != "" ==> shown == text.value
    ensures text.None? || text.value == "" ==> shown == Fallback
  {
    if text.Some? && text.value != "" then text.value else Fallback
  }

  /** `{ ...leadData, timestamp }`: every argument is kept except that the
      timestamp overrides an argument of the same name. */
  function Stamp(args: Args, now: string): (lead: Lead)
    ensures lead.Keys == args.Keys + {TimestampKey}
    ensures lead[TimestampKey] == now
    ensures forall k :: k in args && k != TimestampKey ==> lead[k] == args[k]
  {
    args[TimestampKey := now]
  }

  /** The arguments of the calls named `bookEnquiry`, in order; calls under
      any other name contribute nothing. */
  function BookingArgs(calls: seq<Gemini.FunctionCall>): (bookings: seq<Args>)
    ensures |bookings| <= |calls|
    decreases |calls|
  {
    if calls == [] then []
    else
      var last := calls[|calls| - 1];
      BookingArgs(calls[..|calls| - 1]) + (if last.name == Gemini.BookEnquiry then [last.args] else [])
  }

  /** Every booking comes from a `bookEnquiry` call of the reply. */
  lemma {:induction false} BookingArgsFromCalls(calls: seq<Gemini.FunctionCall>, a: Args)
    requires a in BookingArgs(calls)
    ensures exists c :: c in calls && c.name == Gemini.BookEnquiry && c.args == a
    decreases |calls|
  {
    var init, last := calls[..|calls| - 1], calls[|calls| - 1];
    if a in BookingArgs(init) {
      BookingArgsFromCalls(init, a);
      var c :| c in init && c.name == Gemini.BookEnquiry && c.args == a;
      assert c in calls;
    } else {
      assert last in calls;
    }
  }

  /** The loop over the calls, one call further. */
  lemma BookingArgsNext(calls: seq<Gemini.FunctionCall>, i: nat)
    requires i < |calls|
    ensures calls[i].name == Gemini.BookEnquiry ==>
      BookingArgs(calls[..i + 1]) == BookingArgs(calls[..i]) + [calls[i].args]
    ensures calls[i].name != Gemini.BookEnquiry ==>
      BookingArgs(calls[..i + 1]) == BookingArgs(calls[..i])
  {
    assert calls[..i + 1][..i] == calls[..i];
    assert BookingArgs(calls[..i]) + [] == BookingArgs(calls[..i]);
  }

  lemma {:induction false} BookingArgsAppend(a: seq<Gemini.FunctionCall>, b: seq<Gemini.FunctionCall>)
    ensures BookingArgs(a + b) == BookingArgs(a) + BookingArgs(b)
    decreases |b|
  {
    if b != [] {
      var init := b[..|b| - 1];
      assert (a + b)[..|a + b| - 1] == a + init;
      assert (a + b)[|a + b| - 1] == b[|b| - 1];
      BookingArgsAppend(a, init);
    } else {
      assert a + b == a;
    }
  }

  /** A call under another name has no effect wherever it appears. */
  lemma OtherCallIgnored(a: seq<Gemini.FunctionCall>, c: Gemini.FunctionCall, b: seq<Gemini.FunctionCall>)
    requires c.name != Gemini.BookEnquiry
    ensures BookingArgs(a + [c] + b) == BookingArgs(a + b)
  {
    BookingArgsAppend(a + [c], b);
    BookingArgsAppend(a, [c]);
    BookingArgsAppend(a, b);
    assert BookingArgs([c]) == BookingArgs([]) + [] by { assert [c][..0] == []; }
  }

  /** A `bookEnquiry` call contributes exactly its own arguments, at its place. */
  lemma BookingCallCounted(a: seq<Gemini.FunctionCall>, c: Gemini.FunctionCall, b: seq<Gemini.FunctionCall>)
    requires c.name == Gemini.BookEnquiry
    ensures BookingArgs(a + [c] + b) == BookingArgs(a) + [c.args] + BookingArgs(b)
  {
    BookingArgsAppend(a + [c], b);
    BookingArgsAppend(a, [c]);
    assert BookingArgs([c]) == [c.args] by { assert [c][..0] == []; }
  }

  /** The confirmation text of each booking, in order. */
  function Confirmations(bookings: seq<Args>): (texts: seq<string>)
    ensures |texts| == |bookings|
  {
    if bookings == [] then []
    else Confirmations(bookings[..|bookings| - 1]) + [Confirmation(bookings[|bookings| - 1])]
  }

  /** One bot bubble per text, in order. */
  function BotMessages(texts: seq<string>): (ms: seq<Message>)
    ensures |ms| == |texts|
  {
    if texts == [] then []
    else BotMessages(texts[..|texts| - 1]) + [Message(Bot, texts[|texts| - 1])]
  }

  /** One model turn per text, in order. */
  function ModelTurns(texts: seq<string>): (ts: seq<Gemini.Turn>)
    ensures |ts| == |texts|
  {
    if texts == [] then []
    else ModelTurns(texts[..|texts| - 1]) + [Gemini.ModelTurn(texts[|texts| - 1])]
  }

  /** The builders, element by element: the i-th confirmation, bubble,
      model turn and log entry all come from the i-th booking. */
  lemma {:induction false} BuildersElementwise(bookings: seq<Args>, now: string, i: nat)
    requires i < |bookings|
    ensures Confirmations(bookings)[i] == Confirmation(bookings[i])
    ensures BotMessages(Confirmations(bookings))[i] == Message(Bot, Confirmation(bookings[i]))
    ensures ModelTurns(Confirmations(bookings))[i] == Gemini.ModelTurn(Confirmation(bookings[i]))
    ensures StampAll(bookings, now)[i] == Stamp(bookings[i], now)
    decreases |bookings|
  {
    var init := bookings[..|bookings| - 1];
    var last := bookings[|bookings| - 1];
    assert bookings == init + [last];
    BookingStep(init, last, now);
    if i < |init| {
      BuildersElementwise(init, now, i);
      assert bookings[i] == init[i];
    }
  }

  /** One log entry per booking: its arguments stamped with `now`. */
  function StampAll(bookings: seq<Args>, now: string): (leads: seq<Lead>)
    ensures |leads| == |bookings|
  {
    if bookings == [] then []
    else StampAll(bookings[..|bookings| - 1], now) + [Stamp(bookings[|bookings| - 1], now)]
  }

  /** The widget's state cells, as values. `leads` stands for the
      `upliftr_enquiries` entry of local storage. */
  datatype Session = Session(
    messages: seq<Message>,
    history: seq<Gemini.Turn>,
    input: string,
    isLoading: bool,
    showSuccess: bool,
    enquiryBooked: bool,
    leads: seq<Lead>)

  /** The state on mount: one welcome bubble, nothing typed, nothing booked,
      an empty conversation for the gateway, and the leads already stored. */
  function Initial(stored: seq<Lead>): (s: Session)
    ensures s.messages == [Message(Bot, Welcome)] && s.history == [] && s.input == ""
    ensures !s.isLoading && !s.showSuccess && !s.enquiryBooked && s.leads == stored
  {
    Session([Message(Bot, Welcome)], [], "", false, false, false, stored)
  }

  /** A send goes to the gateway only for a non-blank input, when no request
      is outstanding and nothing has been booked yet. */
  predicate Accepted(s: Session) {
    !IsBlank(s.input) && !s.isLoading && !s.enquiryBooked
  }

  /** What `getGeminiResponse` gave back: the model's response, or the error
      it rethrew. */
  type GatewayResult = Result<Gemini.Response, string>

  /** The result of one send: the new state, the `contents` the gateway sent
      to the model (none when the gateway was not called) and the bodies
      posted, without waiting for an answer, to the remote enquiry mirror. */
  datatype Exchange = Exchange(next: Session, sent: Option<seq<Gemini.Turn>>, posted: seq<Args>)

  /** `handleSend` as one transition; `outcome` is what the gateway call
      would produce, and is consulted only when the gateway is called. What
      each branch does, and what every send preserves, is stated by the
      `Send...` lemmas below. Whatever happens, the loading flag ends as it
      began: a send is atomic here. */
  function Send(s: Session, outcome: GatewayResult, now: string): (x: Exchange)
    ensures x.next.isLoading == s.isLoading
  {
    if IsBlank(s.input) || s.isLoading then Exchange(s, None, [])
    else if s.enquiryBooked then
      Exchange(s.(messages := s.messages + [Message(Bot, Courtesy)], input := ""), None, [])
    else
      var userMsg := s.input;
      var sent := Gemini.Contents(userMsg, Some(s.history));
      var shownUser := s.(messages := s.messages + [Message(User, userMsg)], input := "");
      match outcome
      case Failure(_) =>
        Exchange(shownUser.(messages := shownUser.messages + [Message(Bot, Apology)]), Some(sent), [])
      case Success(reply) =>
        var history := s.history + [Gemini.UserTurn(userMsg)];
        if reply.functionCalls != [] then
          var bookings := BookingArgs(reply.functionCalls);
          Exchange(
            shownUser.(
              messages := shownUser.messages + BotMessages(Confirmations(bookings)),
              history := history + ModelTurns(Confirmations(bookings)),
              showSuccess := s.showSuccess || bookings != [],
              enquiryBooked := bookings != [],
              leads := s.leads + StampAll(bookings, now)),
            Some(sent), bookings)
        else
          var shown := BotText(reply.text);
          Exchange(
            shownUser.(
              messages := shownUser.messages + [Message(Bot, shown)],
              history := history + [Gemini.ModelTurn(shown)]),
            Some(sent), [])
  }

  /** The bubbles and the conversation sent to the model are only ever
      appended to. */
  lemma SendAppendsOnly(s: Session, outcome: GatewayResult, now: string)
    ensures var x := Send(s, outcome, now);
      s.messages <= x.next.messages && s.history <= x.next.history && s.leads <= x.next.leads
  {
  }

  /** The booked flag never goes back to false, and once it is set a send
      leaves the leads log and the conversation alone; a send that does not
      reach the gateway never touches either. */
  lemma SendKeepsBooking(s: Session, outcome: GatewayResult, now: string)
    ensures var x := Send(s, outcome, now);
      && (s.enquiryBooked ==> x.next.enquiryBooked && x.next.leads == s.leads && x.next.history == s.history)
      && (x.sent.None? ==> x.next.history == s.history && x.next.leads == s.leads)
  {
  }

  /** The leads log only grows, and it grows exactly when the send takes the
      session from not booked to booked. */
  lemma SendLogsLeads(s: Session, outcome: GatewayResult, now: string)
    ensures var x := Send(s, outcome, now);
      (|x.next.leads| > |s.leads| <==> !s.enquiryBooked && x.next.enquiryBooked)
  {
  }

  /** An input that is empty or only whitespace, or any send while a request
      is in flight, changes nothing and calls nothing. */
  lemma SendIgnored(s: Session, outcome: GatewayResult, now: string)
    requires IsBlank(s.input) || s.isLoading
    ensures Send(s, outcome, now) == Exchange(s, None, [])
  {
  }

  /** Once an enquiry is booked, a send shows one fixed courtesy bubble (and
      not the user's text), clears the input and calls nothing. */
  lemma SendAfterBooking(s: Session, outcome: GatewayResult, now: string)
    requires !IsBlank(s.input) && !s.isLoading && s.enquiryBooked
    ensures Send(s, outcome, now)
      == Exchange(s.(messages := s.messages + [Message(Bot, Courtesy)], input := ""), None, [])
  {
  }

  /** An accepted send asks the gateway about the history plus the typed
      text, shows that text once as a user bubble right after the old ones,
      and clears the input; the loading flag is back to false at the end. */
  lemma SendAccepted(s: Session, outcome: GatewayResult, now: string)
    requires Accepted(s)
    ensures var x := Send(s, outcome, now);
      && x.sent == Some(Gemini.BuildRequest(s.input, Some(s.history)).contents)
      && x.sent.value == s.history + [Gemini.UserTurn(s.input)]
      && |x.next.messages| > |s.messages|
      && x.next.messages[..|s.messages| + 1] == s.messages + [Message(User, s.input)]
      && x.next.input == "" && !x.next.isLoading
  {
  }

  /** A failed gateway call adds the user bubble and one fixed apology, and
      leaves the conversation sent to the model as it was. */
  lemma SendFailed(s: Session, error: string, now: string)
    requires Accepted(s)
    ensures Send(s, Failure(error), now).next
      == s.(messages := s.messages + [Message(User, s.input), Message(Bot, Apology)], input := "")
    ensures Send(s, Failure(error), now).posted == []
  {
  }

  /** A reply without calls adds one bot bubble with the reply text (or the
      fallback), and the history grows by exactly the user turn and a model
      turn with the same text. */
  lemma SendAnswered(s: Session, reply: Gemini.Response, now: string)
    requires Accepted(s) && reply.functionCalls == []
    ensures var x := Send(s, Success(reply), now);
      var shown := BotText(reply.text);
      && x.next == s.(
        messages := s.messages + [Message(User, s.input), Message(Bot, shown)],
        history := s.history + [Gemini.UserTurn(s.input), Gemini.ModelTurn(shown)],
        input := "")
      && x.posted == []
  {
  }

  /** A reply with calls ignores its text; each `bookEnquiry` call, in order,
      is logged with the timestamp, posted to the mirror, and confirmed both
      as a bubble and as a model turn after the user turn; the booked flag
      (and the success toast) are set when there was at least one. */
  lemma SendBooked(s: Session, reply: Gemini.Response, now: string)
    requires Accepted(s) && reply.functionCalls != []
    ensures var x := Send(s, Success(reply), now);
      var bookings := BookingArgs(reply.functionCalls);
      && x.next == s.(
        messages := s.messages + [Message(User, s.input)] + BotMessages(Confirmations(bookings)),
        history := s.history + [Gemini.UserTurn(s.input)] + ModelTurns(Confirmations(bookings)),
        input := "",
        showSuccess := s.showSuccess || bookings != [],
        enquiryBooked := bookings != [],
        leads := s.leads + StampAll(bookings, now))
      && x.posted == bookings
  {
  }

  /** Calls none of which is named `bookEnquiry` book nothing. */
  lemma {:induction false} NoBookingCalls(calls: seq<Gemini.FunctionCall>)
    requires forall c :: c in calls ==> c.name != Gemini.BookEnquiry
    ensures BookingArgs(calls) == []
    decreases |calls|
  {
    if calls != [] {
      var init := calls[..|calls| - 1];
      assert forall c :: c in init ==> c in calls;
      NoBookingCalls(init);
      assert calls[|calls| - 1] in calls;
    }
  }

  /** A reply whose calls are all under other names adds the user turn to
      the history and the user bubble, and nothing else: no bot bubble, no
      model turn, no lead, no booking. */
  lemma SendOnlyOtherCalls(s: Session, reply: Gemini.Response, now: string)
    requires Accepted(s) && reply.functionCalls != []
    requires forall c :: c in reply.functionCalls ==> c.name != Gemini.BookEnquiry
    ensures var x := Send(s, Success(reply), now);
      && x.next.messages == s.messages + [Message(User, s.input)]
      && x.next.history == s.history + [Gemini.UserTurn(s.input)]
      && x.next.leads == s.leads && !x.next.enquiryBooked && x.next.showSuccess == s.showSuccess
      && x.posted == []
  {
    NoBookingCalls(reply.functionCalls);
    SendBooked(s, reply, now);
  }

  /** The extra bubbles, model turns and log entries one more booking adds. */
  lemma BookingStep(bookings: seq<Args>, args: Args, now: string)
    ensures BotMessages(Confirmations(bookings + [args]))
      == BotMessages(Confirmations(bookings)) + [Message(Bot, Confirmation(args))]
    ensures ModelTurns(Confirmations(bookings + [args]))
      == ModelTurns(Confirmations(bookings)) + [Gemini.ModelTurn(Confirmation(args))]
    ensures StampAll(bookings + [args], now) == StampAll(bookings, now) + [Stamp(args, now)]
  {
    var more := bookings + [args];
    assert more[..|more| - 1] == bookings;
    var texts := Confirmations(more);
    assert texts == Confirmations(bookings) + [Confirmation(args)];
    assert texts[..|texts| - 1] == Confirmations(bookings);
  }

  /** What the user can do to the widget: type into the input box, or press
      send (the gateway's answer to that press and the clock come with it). */
  datatype Event = Typed(text: string) | Pressed(outcome: GatewayResult, now: string)

  /** One event. Typing only replaces the input: it reaches no gateway,
      posts nothing and leaves bubbles, history and leads alone. No event
      leaves the widget loading. */
  function Step(s: Session, e: Event): (x: Exchange)
    ensures x.next.isLoading == s.isLoading
    ensures e.Typed? ==> x.sent.None? && x.posted == [] && x.next.input == e.text
    ensures e.Typed? ==> x.next.messages == s.messages && x.next.history == s.history && x.next.leads == s.leads
  {
    match e
    case Typed(text) => Exchange(s.(input := text), None, [])
    case Pressed(outcome, now) => Send(s, outcome, now)
  }

  /** A session driven by a sequence of events: where it ends up, and the
      contents of every request sent to the model on the way, in order. */
  datatype Trace = Trace(last: Session, requests: seq<seq<Gemini.Turn>>)

  function Run(s: Session, events: seq<Event>): (t: Trace)
    ensures |t.requests| <= |events|
    decreases |events|
  {
    if events == [] then Trace(s, [])
    else
      var x := Step(s, events[0]);
      var t := Run(x.next, events[1..]);
      Trace(t.last, (if x.sent.Some? then [x.sent.value] else []) + t.requests)
  }

  /** At most one live booking per session: once an enquiry is booked the
      flag stays set, the gateway is never called again, and neither the
      leads log nor the conversation sent to the model changes, whatever the
      user does next. */
  lemma {:induction false} BookedSessionStaysQuiet(s: Session, events: seq<Event>)
    requires s.enquiryBooked
    ensures Run(s, events).last.enquiryBooked
    ensures Run(s, events).requests == []
    ensures Run(s, events).last.leads == s.leads
    ensures Run(s, events).last.history == s.history
    decreases |events|
  {
    if events != [] {
      if events[0].Pressed? {
        SendKeepsBooking(s, events[0].outcome, events[0].now);
      }
      BookedSessionStaysQuiet(Step(s, events[0]).next, events[1..]);
    }
  }

  /** Over any run the bubbles, the conversation and the leads log are only
      appended to. */
  lemma {:induction false} RunAppendsOnly(s: Session, events: seq<Event>)
    ensures var t := Run(s, events).last;
      s.messages <= t.messages && s.history <= t.history && s.leads <= t.leads
    decreases |events|
  {
    if events != [] {
      var x := Step(s, events[0]).next;
      RunAppendsOnly(x, events[1..]);
      if events[0].Pressed? {
        SendAppendsOnly(s, events[0].outcome, events[0].now);
      }
      assert Run(s, events).last == Run(x, events[1..]).last;
    }
  }

  /** A run leaves the loading flag as it found it. */
  lemma {:induction false} RunKeepsLoading(s: Session, events: seq<Event>)
    ensures Run(s, events).last.isLoading == s.isLoading
    decreases |events|
  {
    if events != [] {
      var x := Step(s, events[0]).next;
      RunKeepsLoading(x, events[1..]);
    }
  }

  /** The leads log grows over a run exactly when the run takes the session
      from not booked to booked. */
  lemma {:induction false} RunLogsLeads(s: Session, events: seq<Event>)
    ensures var t := Run(s, events).last;
      |t.leads| > |s.leads| <==> !s.enquiryBooked && t.enquiryBooked
    decreases |events|
  {
    if events != [] {
      var x := Step(s, events[0]).next;
      RunLogsLeads(x, events[1..]);
      RunAppendsOnly(x, events[1..]);
      if events[0].Pressed? {
        SendAppendsOnly(s, events[0].outcome, events[0].now);
        SendLogsLeads(s, events[0].outcome, events[0].now);
        SendKeepsBooking(s, events[0].outcome, events[0].now);
      }
      if x.enquiryBooked {
        BookedSessionStaysQuiet(x, events[1..]);
      }
    }
  }

  /** From the moment the widget mounts: it is never left loading, the
      welcome bubble stays first, and the enquiry counts as booked exactly
      when this session has added a lead to the stored log. */
  lemma SessionFromMount(stored: seq<Lead>, events: seq<Event>)
    ensures var t := Run(Initial(stored), events).last;
      && !t.isLoading
      && |t.messages| > 0 && t.messages[0] == Message(Bot, Welcome)
      && stored <= t.leads
      && (t.enquiryBooked <==> |t.leads| > |stored|)
  {
    RunAppendsOnly(Initial(stored), events);
    RunKeepsLoading(Initial(stored), events);
    RunLogsLeads(Initial(stored), events);
  }

  /** The loop of `handleSend` over the reply's function calls: every
      `bookEnquiry` call, in order, is posted, logged with the timestamp and
      confirmed in a bubble and in the history; any other call is skipped. */
  method CollectBookings(calls: seq<Gemini.FunctionCall>, now: string)
    returns (posted: seq<Args>, bubbles: seq<Message>, turns: seq<Gemini.Turn>, logged: seq<Lead>)
    ensures posted == BookingArgs(calls)
    ensures bubbles == BotMessages(Confirmations(posted))
    ensures turns == ModelTurns(Confirmations(posted))
    ensures logged == StampAll(posted, now)
  {
    posted, bubbles, turns, logged := [], [], [], [];
    var i := 0;
    while i < |calls|
      invariant 0 <= i <= |calls|
      invariant posted == BookingArgs(calls[..i])
      invariant bubbles == BotMessages(Confirmations(posted))
      invariant turns == ModelTurns(Confirmations(posted))
      invariant logged == StampAll(posted, now)
    {
      var fc := calls[i];
      BookingArgsNext(calls, i);
      if fc.name == Gemini.BookEnquiry {
        var leadData := fc.args;
        BookingStep(posted, leadData, now);
        logged := logged + [Stamp(leadData, now)];
        posted := posted + [leadData];
        var confirmation := Confirmation(leadData);
        bubbles := bubbles + [Message(Bot, confirmation)];
        turns := turns + [Gemini.ModelTurn(confirmation)];
      }
      i := i + 1;
    }
    assert calls[..i] == calls;
  }

  /** The chat widget's state cells. `leads` stands for the stored
      `upliftr_enquiries` array; the open/closed toggle and the success
      toast's timer are not modelled. */
  class ChatWidget {
    var messages: seq<Message>
    var history: seq<Gemini.Turn>
    var input: string
    var isLoading: bool
    var showSuccess: bool
    var enquiryBooked: bool
    var leads: seq<Lead>

    function State(): Session
      reads this
    {
      Session(messages, history, input, isLoading, showSuccess, enquiryBooked, leads)
    }

    /** Mounting the widget, with the leads already in local storage. */
    constructor (stored: seq<Lead>)
      ensures State() == Initial(stored)
    {
      messages := [Message(Bot, Welcome)];
      history := [];
      input := "";
      isLoading := false;
      showSuccess := false;
      enquiryBooked := false;
      leads := stored;
    }

    /** The input box's `onChange`. */
    method SetInput(text: string)
      modifies this
      ensures State() == old(State()).(input := text)
    {
      input := text;
    }

    /** `handleSend`: updates the cells step by step and reports the contents
      it had sent to the model and the bodies it posted to the mirror. */
    method HandleSend(outcome: GatewayResult, now: string) returns (sent: Option<seq<Gemini.Turn>>, posted: seq<Args>)
      modifies this
      ensures Exchange(State(), sent, posted) == Send(old(State()), outcome, now)
    {
      sent, posted := None, [];
      if IsBlank(input) || isLoading {
        return;
      }
      if enquiryBooked {
        messages := messages + [Message(Bot, Courtesy)];
        input := "";
        return;
      }
      ghost var s0 := State();
      var userMsg := input;
      messages := messages + [Message(User, userMsg)];
      input := "";
      isLoading := true;
      sent := Some(Gemini.Contents(userMsg, Some(history)));
      posted := Receive(userMsg, outcome, now);
      isLoading := false;
      match outcome {
        case Failure(error) => SendFailed(s0, error, now);
        case Success(reply) =>
          if reply.functionCalls != [] {
            SendBooked(s0, reply, now);
          } else {
            SendAnswered(s0, reply, now);
          }
      }
    }

    /** The `try`/`catch` around the gateway call, once the user's bubble is
      shown: an apology on failure; otherwise the user turn joins the
      history, then either the calls are processed or the reply is shown. */
    method Receive(userMsg: string, outcome: GatewayResult, now: string) returns (posted: seq<Args>)
      modifies this
      ensures input == old(input) && isLoading == old(isLoading)
      ensures outcome.Failure? ==>
        && messages == old(messages) + [Message(Bot, Apology)]
        && history == old(history) && leads == old(leads)
        && enquiryBooked == old(enquiryBooked) && showSuccess == old(showSuccess)
        && posted == []
      ensures outcome.Success? && outcome.value.functionCalls == [] ==>
        && messages == old(messages) + [Message(Bot, BotText(outcome.value.text))]
        && history == old(history) + [Gemini.UserTurn(userMsg), Gemini.ModelTurn(BotText(outcome.value.text))]
        && leads == old(leads)
        && enquiryBooked == old(enquiryBooked) && showSuccess == old(showSuccess)
        && posted == []
      ensures outcome.Success? && outcome.value.functionCalls != [] ==>
        var bookings := BookingArgs(outcome.value.functionCalls);
        && messages == old(messages) + BotMessages(Confirmations(bookings))
        && history == old(history) + [Gemini.UserTurn(userMsg)] + ModelTurns(Confirmations(bookings))
        && leads == old(leads) + StampAll(bookings, now)
        && enquiryBooked == (old(enquiryBooked) || bookings != [])
        && showSuccess == (old(showSuccess) || bookings != [])
        && posted == bookings
    {
      match outcome {
        case Failure(_) =>
          messages := messages + [Message(Bot, Apology)];
          posted := [];
        case Success(response) =>
          history := history + [Gemini.UserTurn(userMsg)];
          if response.functionCalls != [] {
            posted := ProcessCalls(response.functionCalls, now);
          } else {
            var botText := BotText(response.text);
            messages := messages + [Message(Bot, botText)];
            history := history + [Gemini.ModelTurn(botText)];
            posted := [];
          }
      }
    }

    /** The `for` loop over the reply's function calls, with the state
      updates it queues applied together once it ends, as the widget's state
      setters batch them. */
    method ProcessCalls(calls: seq<Gemini.FunctionCall>, now: string) returns (posted: seq<Args>)
      modifies this
      ensures posted == BookingArgs(calls)
      ensures messages == old(messages) + BotMessages(Confirmations(posted))
      ensures history == old(history) + ModelTurns(Confirmations(posted))
      ensures leads == old(leads) + StampAll(posted, now)
      ensures enquiryBooked == (old(enquiryBooked) || posted != [])
      ensures showSuccess == (old(showSuccess) || posted != [])
      ensures input == old(input) && isLoading == old(isLoading)
    {
      var bubbles, turns, logged;
      posted, bubbles, turns, logged := CollectBookings(calls, now);
      messages := messages + bubbles;
      history := history + turns;
      leads := leads + logged;
      enquiryBooked := enquiryBooked || posted != [];
      showSuccess := showSuccess || posted != [];
    }
  }
}
