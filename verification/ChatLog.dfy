/**
  The application side of a session: message counters, the message log and the title
  (src/core/domain/Session.js, src/core/services/SessionManager.js).
*/
module ChatLog {
  import opened Payload

  const MAX_COUNTER_JUMP := 10000

  datatype LogEntry = LogEntry(message: Message, self: bool)

  datatype App = App(counter: nat, lastReceived: nat, messages: seq<LogEntry>, title: string)

  const EMPTY_APP := App(0, 0, [], "")

  /** `validateReceivedCounter`: counters only grow, and never by more than 10000 at once. */
  predicate CounterAccepted(lastReceived: nat, counter: int) {
    1 <= counter && lastReceived < counter <= lastReceived + MAX_COUNTER_JUMP
  }

  function Accept(app: App, m: Message): App
    requires CounterAccepted(app.lastReceived, m.counter)
  {
    app.(lastReceived := m.counter, messages := app.messages + [LogEntry(m, false)])
  }

  /** What the message listener does with a decrypted payload; an error leaves everything as it is. */
  function Receive(app: App, plain: Payload): App {
    match plain
    case Chat(m) =>
      if ValidMessage(m) && CounterAccepted(app.lastReceived, m.counter) then Accept(app, m) else app
    case Control(action, title) =>
      if action == Title && title != "" then app.(title := title) else app
    case OtherTag => app
  }

  /** The messages this peer sent (`self`), or received (`!self`), in log order. */
  function Picked(messages: seq<LogEntry>, self: bool): seq<Message> {
    if messages == [] then []
    else
      var last := messages[|messages| - 1];
      Picked(messages[..|messages| - 1], self) + if last.self == self then [last.message] else []
  }

  lemma PickedAppend(messages: seq<LogEntry>, m: Message, self: bool)
    ensures Picked(messages + [LogEntry(m, self)], self) == Picked(messages, self) + [m]
    ensures Picked(messages + [LogEntry(m, self)], !self) == Picked(messages, !self)
  {
  }

  /** Every payload there is: what it adds to the log, and what it makes of the title; nothing else ever changes. */
  lemma ReceivedExactly(app: App, plain: Payload)
    ensures Receive(app, plain).counter == app.counter
    ensures var logged := plain.Chat? && 0 < |plain.message.text| <= 10000
                          && app.lastReceived < plain.message.counter <= app.lastReceived + 10000;
      && Receive(app, plain).messages == app.messages + (if logged then [LogEntry(plain.message, false)] else [])
      && Receive(app, plain).lastReceived == (if logged then plain.message.counter else app.lastReceived)
    ensures Receive(app, plain).title ==
      if plain.Control? && plain.action == Title && plain.title != "" then plain.title else app.title
  {
  }

  ghost function ReceivePayloads(app: App, plains: seq<Payload>): App
    decreases |plains|
  {
    if plains == [] then app else ReceivePayloads(Receive(app, plains[0]), plains[1..])
  }

  /** The counter logged before position `i`; 0 before the first. */
  function CounterBefore(ms: seq<Message>, i: nat): int
    requires i <= |ms|
  {
    if i == 0 then 0 else ms[i - 1].counter
  }

  ghost predicate EntryOk(ms: seq<Message>, i: nat)
    requires i < |ms|
  {
    0 < |ms[i].text| <= 10000 && CounterBefore(ms, i) < ms[i].counter <= CounterBefore(ms, i) + 10000
  }

  /** The received part of a log: whole messages, counters that rise by at most 10000, the last one remembered. */
  ghost predicate SoundLog(app: App) {
    var ms := Picked(app.messages, false);
    && (forall i :: 0 <= i < |ms| ==> EntryOk(ms, i))
    && app.lastReceived == CounterBefore(ms, |ms|)
  }

  /** Whatever payloads open, a peer that lies included, the received log stays sound and the own log untouched. */
  lemma {:induction false} AnyPayloadsKeepLogSound(app: App, plains: seq<Payload>)
    requires SoundLog(app)
    ensures SoundLog(ReceivePayloads(app, plains))
    ensures Picked(ReceivePayloads(app, plains).messages, true) == Picked(app.messages, true)
    ensures app.messages <= ReceivePayloads(app, plains).messages
    decreases |plains|
  {
    if plains != [] {
      ReceiveKeepsSound(app, plains[0]);
      AnyPayloadsKeepLogSound(Receive(app, plains[0]), plains[1..]);
    }
  }

  lemma ReceiveKeepsSound(app: App, plain: Payload)
    requires SoundLog(app)
    ensures SoundLog(Receive(app, plain)) && Picked(Receive(app, plain).messages, true) == Picked(app.messages, true)
  {
    if Receive(app, plain).messages != app.messages {
      PickedAppend(app.messages, plain.message, false);
      var ms := Picked(app.messages, false);
      forall i | 0 <= i < |ms|
        ensures EntryOk(ms + [plain.message], i)
      {
        assert EntryOk(ms, i);
      }
    }
  }
}
