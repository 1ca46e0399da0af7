/** What a screen shows and where it goes next. */
module Ui {
  import opened Js

  /** The `type` of a `{ type, content }` message; "" before anything has been shown. */
  datatype MessageKind = Unset | Success | Error

  /** The message banner of a form screen (hidden while `content` is ""). */
  datatype Message = Message(kind: MessageKind, content: string)

  const NoMessage := Message(Unset, "")

  /** A `router.push(route)`, immediately (delay 0) or from a `setTimeout`. */
  datatype Navigation = Navigation(route: string, delayMs: nat)

  /** The effect of one submission on a screen: the message it sets and the navigation it starts. */
  datatype Reaction = Reaction(message: Message, navigation: Option<Navigation>)
}
