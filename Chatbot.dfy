/**
 * The incoming chat message (`dingtalk_stream.ChatbotMessage`) as far as the reply code
 * reads it, and the quantities that flow with it.
 */
module Chatbot {

  /** A media reference returned by the upload service (`@lALP...`). */
  type MediaId = string

  /** Elapsed time in whole milliseconds, i.e. `round(seconds, 3)` scaled by 1000. */
  type Millis = nat

  datatype IncomingMessage = IncomingMessage(
    conversationType: string,  // "1" for a private chat, anything else for a group
    conversationId: string,
    senderId: string,
    senderCorpId: string,
    senderNick: string,
    senderStaffId: string,
    messageId: string,
    robotCode: string,
    textContent: string,       // `text.content`, the prompt as typed
    sessionWebhook: string)

  /** Private chat, the only case in which a card is addressed to one user. */
  predicate IsPrivate(m: IncomingMessage) {
    m.conversationType == "1"
  }
}
