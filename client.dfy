/** The browser client's `sendContact`: after the POST, a response that is
    not ok becomes an error whose message is the response text, or
    "Request failed with <status>" when that text is empty or cannot be read;
    an ok response yields its parsed JSON body. The request itself is not
    part of this module; the function here starts from the response. */
module ContactClient {
  import opened Js

  /** What `fetch` resolved to: the status, the body read as text (`None`
      when reading it fails) and the body parsed as JSON (`None` when it is
      not JSON). */
  datatype HttpResponse<J> = HttpResponse(status: nat, text: Option<string>, json: Option<J>) {
    /** `res.ok`: the status is in the range 200 to 299. */
    predicate Ok() {
      200 <= status <= 299
    }
  }

  /** How the promise returned by `sendContact` settles. `InvalidJson` is the
      rejection `res.json()` raises for an ok response whose body is not JSON. */
  datatype ClientResult<J> = Resolved(value: J) | Rejected(message: string) | InvalidJson

  const FallbackPrefix := "Request failed with "

  /** The error message for a response that is not ok: the body text when it
      is non-empty, else the fallback naming the status. A body that cannot be
      read counts as empty. The message is never empty. */
  function FailureMessage(status: nat, text: Option<string>): (m: string)
    ensures m != ""
    ensures Truthy(text) ==> m == text.value
    ensures !Truthy(text) ==> m == FallbackPrefix + Decimal(status)
    ensures !Truthy(text) ==> |m| > |FallbackPrefix| && m[..|FallbackPrefix|] == FallbackPrefix
    ensures !Truthy(text) ==> forall i | |FallbackPrefix| <= i < |m| :: IsDigit(m[i])
    ensures !Truthy(text) ==> ParseDecimal(m[|FallbackPrefix|..]) == status
  {
    var body := if text.Some? then text.value else "";
    if body != "" then
      body
    else
      var m := FallbackPrefix + Decimal(status);
      assert m[|FallbackPrefix|..] == Decimal(status);
      DecimalRoundTrip(status);
      m
  }

  /** `sendContact` from the moment the response arrives. */
  function SendContact<J>(resp: HttpResponse<J>): (r: ClientResult<J>)
    ensures r.Rejected? <==> !resp.Ok()
    ensures r.Resolved? <==> resp.Ok() && resp.json.Some?
    ensures r.Resolved? ==> r.value == resp.json.value
    ensures r.Rejected? ==> r.message == FailureMessage(resp.status, resp.text)
  {
    if !resp.Ok() then
      Rejected(FailureMessage(resp.status, resp.text))
    else
      match resp.json
      case Some(j) => Resolved(j)
      case None => InvalidJson
  }

  /** A failed request whose body says nothing reports its status: two such
      responses give the same message only when their statuses agree. */
  lemma FallbackIdentifiesStatus(s1: nat, s2: nat)
    requires FailureMessage(s1, None) == FailureMessage(s2, None)
    ensures s1 == s2
  {
  }

  /** A body that cannot be read is treated like an empty body. */
  lemma UnreadableBodyIsEmpty(status: nat)
    ensures FailureMessage(status, None) == FailureMessage(status, Some(""))
    ensures FailureMessage(status, None) == FallbackPrefix + Decimal(status)
  {
  }

  /** The two cases the client promises: a 200 with `{ok: true, id: "abc"}`
      yields exactly that object, and a 400 with body "bad" is rejected with
      the message "bad". */
  lemma ClientExamples<J>(ack: J)
    ensures SendContact(HttpResponse(200, Some("{\"ok\":true,\"id\":\"abc\"}"), Some(ack))) == Resolved(ack)
    ensures SendContact<J>(HttpResponse(400, Some("bad"), None)) == Rejected("bad")
  {
  }
}
