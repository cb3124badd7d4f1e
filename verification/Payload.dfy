/**
  What travels inside an envelope: chat messages and control messages on one ratchet
  (src/core/domain/Message.js, src/core/domain/Envelope.js).
*/
module Payload {

  const MESSAGE_MAX_LENGTH := 10000

  datatype Message = Message(id: nat, text: string, sender: string, timestamp: int, counter: int)

  datatype ControlAction = Title | DeleteRequest | Unknown

  /** JSON text after JSON.parse: the tag decides, and any other tag is an error. */
  datatype Payload =
    | Chat(message: Message)
    | Control(action: ControlAction, title: string)
    | OtherTag

  predicate ValidText(text: string) {
    0 < |text| <= MESSAGE_MAX_LENGTH
  }

  /** The Message constructor throws on anything else. */
  predicate ValidMessage(m: Message) {
    ValidText(m.text) && m.counter >= 1
  }
}
