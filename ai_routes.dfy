/** The text-generation routes: POST /generate, /generate-haiku and
    /generate-joke, each behind `authenticate, incrementRequestCount`.

    The upstream generator is an oracle: `upstream` is what the remote model
    would answer (`None` when the call fails). Each handler reports the
    prompt it sent to the generator, if any, so that "the generator was not
    called" can be stated. */
module AiRoutes {
  import opened Wrappers
  import opened Queries
  import opened Tokens
  import opened Middleware

  /** What `generateAiText` resolves or rejects with. */
  datatype Generation = Generated(text: string) | Rejected(message: string)

  /** `generateAiText(prompt)`: an empty prompt is rejected before any call;
      a failed call is rejected with a fixed message. */
  function GenerateAiText(prompt: string, upstream: Option<string>): (g: Generation)
    ensures prompt == "" ==> g == Rejected("Prompt is required.")
    ensures prompt != "" ==> (g.Generated? <==> upstream.Some?)
    ensures prompt != "" && upstream.Some? ==> g == Generated(upstream.value)
    ensures prompt != "" && upstream.None? ==> g == Rejected("Error generating text.")
  {
    if prompt == "" then Rejected("Prompt is required.")
    else match upstream
      case Some(text) => Generated(text)
      case None => Rejected("Error generating text.")
  }

  /** `req.body.username` as the joke route sees it. */
  datatype JokeField =
    | Missing                   // undefined or null
    | Text(s: string)           // the plain string a client sends
    | Nested(username: string)  // an object with its own `username` property

  const HaikuPrompt := "write a haiku about ai"

  // The prompt texts are written as concatenations of short literals so that
  // the verifier can index them cheaply.
  const GenericJokePrompt := "Tell me a random funny joke of the day." + " Keep it short, clever, and family-friendly."

  function PersonalJokePrompt(username: string): string
  {
    "Create a light-hearted, funny joke " + "that includes the name " + username
    + " in a playful way. Keep it family-friendly and clever."
  }

  /** `const { username } = req.body.username` and the prompt chosen from it:
      `None` where the destructuring throws (the field is missing). A plain
      string has no `username` property, so it yields the generic prompt. */
  function JokePrompt(field: JokeField): (p: Option<string>)
    ensures p.None? <==> field.Missing?
    ensures p == Some(GenericJokePrompt) <==> field.Text? || (field.Nested? && field.username == "")
    ensures field.Nested? && field.username != "" ==> p == Some(PersonalJokePrompt(field.username))
  {
    match field
    case Missing => None
    case Text(_) => Some(GenericJokePrompt)
    case Nested(username) =>
      assert GenericJokePrompt[0] == 'T';
      assert PersonalJokePrompt(username)[0] == 'C';
      Some(if username != "" then PersonalJokePrompt(username) else GenericJokePrompt)
  }

  const ChargeFailure := Response(500, Message("Error decrementing API calls."), None)

  /** The `try` block the three handlers share: generate, then charge the
      caller one call, then answer. Nothing is charged when generation fails;
      a failed charge replaces the text with a 500. */
  method GenerateThenCharge(db: Database, id: int, prompt: string, upstream: Option<string>, chargeOk: bool)
    returns (resp: Response)
    requires db.Valid()
    modifies db
    ensures db.Valid()
    ensures db.resource == old(db.resource) && db.nextId == old(db.nextId)
    ensures GenerateAiText(prompt, upstream).Rejected? ==>
      resp == Response(500, Message(GenerateAiText(prompt, upstream).message), None) && db.users == old(db.users)
    ensures GenerateAiText(prompt, upstream).Generated? && !chargeOk ==>
      resp == ChargeFailure && db.users == old(db.users)
    ensures GenerateAiText(prompt, upstream).Generated? && chargeOk ==>
      resp == Response(200, GeneratedText(GenerateAiText(prompt, upstream).text), None)
      && db.users == Decremented(old(db.users), id)
  {
    var g := GenerateAiText(prompt, upstream);
    if g.Rejected? {
      return Response(500, Message(g.message), None);
    }
    var r := db.DecrementApiCalls(id, chargeOk);
    if r.Failed? {
      return ChargeFailure;
    }
    resp := Response(200, GeneratedText(g.text), None);
  }

  /** The id claim of an authenticated request. */
  function CallerId(req: Request): int
    requires req.user.Some?
  {
    req.user.value.claims.id
  }

  /** POST /generate. A missing or empty prompt is answered 400 after the
      request was counted, without calling the generator or charging. A
      successful generation charges the caller exactly once; the quota is no
      gate, so a caller at 0 still gets text and stays at 0. */
  method Generate(db: Database, req: Request, prompt: Option<string>, upstream: Option<string>,
                  secret: string, now: int, io: Io)
    returns (resp: Response, sent: Option<string>)
    requires db.Valid()
    modifies db
    ensures db.Valid()
    ensures db.nextId == old(db.nextId)
    ensures Authenticate(req, secret, now).Halt? ==>
      resp == Authenticate(req, secret, now).resp && sent.None? && db.users == old(db.users) && db.resource == old(db.resource)
    ensures Authenticate(req, secret, now).Next? && !(io.counterRead && io.counterWrite) ==>
      resp == CountFailure && sent.None? && db.users == old(db.users) && db.resource == old(db.resource)
    ensures sent.Some? ==> sent == prompt && prompt.value != ""
    ensures var a := Authenticate(req, secret, now);
      a.Next? && io.counterRead && io.counterWrite ==>
        && db.resource == Counted(old(db.resource), RequestKey(req))
        && (prompt.None? || prompt == Some("") ==>
              resp == Response(400, Message("Prompt is required."), None) && sent.None? && db.users == old(db.users))
        && (prompt.Some? && prompt.value != "" ==> sent == prompt)
        && (prompt.Some? && prompt.value != "" && upstream.None? ==>
              resp == Response(500, Message("Error generating text."), None) && db.users == old(db.users))
        && (prompt.Some? && prompt.value != "" && upstream.Some? && io.query ==>
              resp == Response(200, GeneratedText(upstream.value), None)
              && db.users == Decremented(old(db.users), CallerId(a.req)))
        && (prompt.Some? && prompt.value != "" && upstream.Some? && !io.query ==>
              resp == ChargeFailure && db.users == old(db.users))
    ensures db.users != old(db.users) ==> resp.status == 200 && sent.Some?
  {
    sent := None;
    var s := SignedInChain(db, req, secret, now, io);
    if s.Halt? {
      return s.resp, None;
    }
    if prompt.None? || prompt.value == "" {
      return Response(400, Message("Prompt is required."), None), None;
    }
    sent := prompt;
    resp := GenerateThenCharge(db, CallerId(s.req), prompt.value, upstream, io.query);
  }

  /** POST /generate-haiku: the same, with a fixed prompt. */
  method GenerateHaiku(db: Database, req: Request, upstream: Option<string>, secret: string, now: int, io: Io)
    returns (resp: Response, sent: Option<string>)
    requires db.Valid()
    modifies db
    ensures db.Valid()
    ensures db.nextId == old(db.nextId)
    ensures Authenticate(req, secret, now).Halt? ==>
      resp == Authenticate(req, secret, now).resp && sent.None? && db.users == old(db.users) && db.resource == old(db.resource)
    ensures Authenticate(req, secret, now).Next? && !(io.counterRead && io.counterWrite) ==>
      resp == CountFailure && sent.None? && db.users == old(db.users) && db.resource == old(db.resource)
    ensures sent.Some? ==> sent == Some(HaikuPrompt)
    ensures var a := Authenticate(req, secret, now);
      a.Next? && io.counterRead && io.counterWrite ==>
        && sent == Some(HaikuPrompt)
        && db.resource == Counted(old(db.resource), RequestKey(req))
        && (upstream.Some? && io.query ==>
              resp == Response(200, GeneratedText(upstream.value), None)
              && db.users == Decremented(old(db.users), CallerId(a.req)))
        && (upstream.None? ==> resp == Response(500, Message("Error generating text."), None) && db.users == old(db.users))
        && (upstream.Some? && !io.query ==> resp == ChargeFailure && db.users == old(db.users))
    ensures db.users != old(db.users) ==> resp.status == 200
  {
    var s := SignedInChain(db, req, secret, now, io);
    if s.Halt? {
      return s.resp, None;
    }
    sent := Some(HaikuPrompt);
    resp := GenerateThenCharge(db, CallerId(s.req), HaikuPrompt, upstream, io.query);
  }

  /** POST /generate-joke: the prompt is personalised iff the destructured
      `username` is a non-empty string; a missing field throws before the
      `try` and escapes the handler, which sends nothing (the request has
      been counted). */
  method GenerateJoke(db: Database, req: Request, field: JokeField, upstream: Option<string>,
                      secret: string, now: int, io: Io)
    returns (out: Outcome, sent: Option<string>)
    requires db.Valid()
    modifies db
    ensures db.Valid()
    ensures db.nextId == old(db.nextId)
    ensures Authenticate(req, secret, now).Halt? ==>
      out == Sent(Authenticate(req, secret, now).resp) && sent.None? && db.users == old(db.users) && db.resource == old(db.resource)
    ensures Authenticate(req, secret, now).Next? && !(io.counterRead && io.counterWrite) ==>
      out == Sent(CountFailure) && sent.None? && db.users == old(db.users) && db.resource == old(db.resource)
    ensures sent.Some? ==> sent == JokePrompt(field)
    ensures var a := Authenticate(req, secret, now);
      a.Next? && io.counterRead && io.counterWrite ==>
        && sent == JokePrompt(field)
        && db.resource == Counted(old(db.resource), RequestKey(req))
        && (field.Missing? ==> out == Escaped && db.users == old(db.users))
        && (!field.Missing? && upstream.Some? && io.query ==>
              out == Sent(Response(200, GeneratedText(upstream.value), None))
              && db.users == Decremented(old(db.users), CallerId(a.req)))
        && (!field.Missing? && upstream.None? ==>
              out == Sent(Response(500, Message("Error generating text."), None)) && db.users == old(db.users))
        && (!field.Missing? && upstream.Some? && !io.query ==>
              out == Sent(ChargeFailure) && db.users == old(db.users))
    ensures db.users != old(db.users) ==> out.Sent? && out.resp.status == 200
  {
    var s := SignedInChain(db, req, secret, now, io);
    if s.Halt? {
      return Sent(s.resp), None;
    }
    sent := JokePrompt(field);
    if sent.None? {
      return Escaped, sent;
    }
    var resp := GenerateThenCharge(db, CallerId(s.req), sent.value, upstream, io.query);
    out := Sent(resp);
  }
}
