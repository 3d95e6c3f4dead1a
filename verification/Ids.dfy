/** Identifiers and small wrappers shared by every module. */
module Ids {

  /** Thread, turn, project and prompt identifiers are compared only for equality
      and for emptiness; `NONE` is the empty string of the source. */
  type Id = nat
  const NONE: Id := 0

  datatype Option<+T> = None | Some(value: T)

  /** A Telegram chat and topic; chat id zero means that no chat is known. */
  datatype Chat = Chat(id: int, topic: int)

  /** The key of a continuation row, and the source columns of a queued command. */
  datatype Key = Key(chat: Chat, thread: Id, turn: Id) {
    predicate Complete() {
      chat.id != 0 && thread != NONE && turn != NONE
    }
  }
}
