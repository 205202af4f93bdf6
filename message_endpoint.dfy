/** The `/send-message` route of app.py, which the contact form posts to. The
    route reads the request's JSON body and, for any body `request.get_json()`
    parses, answers with a fixed confirmation: nothing is stored or forwarded.
    A body `get_json` rejects ends the request with an error status before the
    reply is built; that path is not modelled. */
module MessageEndpoint {

  /** The JSON object the route answers with. */
  datatype Reply = Reply(success: bool, message: string)

  const ReceivedText: string := "Message received! I will get back to you soon."

  /** `send_message()` once `get_json` has parsed the body: the parsed value is
      read and ignored. */
  function SendMessage<Body>(body: Body): (reply: Reply)
    ensures reply.success
    ensures reply.message == ReceivedText
  {
    Reply(true, ReceivedText)
  }

  /** The reply does not depend on what was sent. */
  lemma ReplyIgnoresBody<Body>(a: Body, b: Body)
    ensures SendMessage(a) == SendMessage(b)
  {
  }
}
