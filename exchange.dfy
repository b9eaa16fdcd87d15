/** The client and the relay together: what `sendContact` settles to for each
    way the contact handler can end. The response travels as the JSON text
    the server writes; parsing that text on the client gives back the reply
    the server serialised. */
module Exchange {
  import opened Js
  import opened ContactRelay
  import opened ContactClient

  /** The server's response as the client's `fetch` sees it. */
  function Transmit(r: Response): HttpResponse<Reply> {
    HttpResponse(r.status, Some(Render(r.reply)), Some(r.reply))
  }

  /** The client resolves exactly when the relay delivered the message, and
      then to the acknowledgement carrying the transport's id; otherwise its
      error message is the whole JSON text of the server's error reply. */
  lemma EndToEnd(body: Option<Submission>, env: Env, send: SendResult)
    ensures var o := Handle(body, env, send);
      SendContact(Transmit(Respond(o)))
      == if o.Sent? then Resolved(Ack(o.id)) else Rejected(Render(Respond(o).reply))
  {
  }

  /** The text of an error reply whose message needs no JSON escaping. */
  lemma RenderPlainError(e: string)
    requires PlainJson(e)
    ensures Render(ErrorReply(e)) == "{\"error\":\"" + e + "\"}"
  {
  }

  /** For every failure the client's error message is the whole JSON text of
      the server's reply, which is longer than, and so never equal to, the
      message the server put inside it. */
  lemma ClientSeesRawErrorJson(body: Option<Submission>, env: Env, send: SendResult)
    requires !Handle(body, env, send).Sent?
    ensures var reply := Respond(Handle(body, env, send)).reply;
      && reply.ErrorReply?
      && SendContact(Transmit(Respond(Handle(body, env, send)))) == Rejected(Render(reply))
      && Render(reply) != reply.error
  {
    EndToEnd(body, env, send);
    var reply := Respond(Handle(body, env, send)).reply;
    assert |Render(reply)| > |reply.error|;
  }

  /** A send that threw reaches the user as the text
      `{"error":"Failed to send email"}`. */
  lemma ClientSeesSendFailedJson(body: Option<Submission>, env: Env, send: SendResult)
    requires HasRequiredFields(Fields(body)) && Configured(env) && send.Threw?
    ensures SendContact(Transmit(Respond(Handle(body, env, send))))
         == Rejected("{\"error\":\"" + SendFailedError + "\"}")
  {
    assert Respond(Handle(body, env, send)) == Response(500, ErrorReply(SendFailedError));
    SendFailedIsPlain();
    RenderPlainError(SendFailedError);
  }

  lemma SendFailedIsPlain()
    ensures PlainJson(SendFailedError)
  {
  }
}
