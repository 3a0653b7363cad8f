/**
  The serverless handler behind the confession form: it checks the request,
  normalises the four form fields, builds the message text and posts it to
  Telegram's `sendMessage`, then maps Telegram's answer to its own reply.

  `Plan` decides everything that happens before the outbound call; `Finish`
  maps the upstream outcome; `Handle` is the whole decision. Each takes the
  `Template` of the posted text: `AsWritten` is the handler's own, which
  Telegram cannot parse, and `Corrected` has its metadata line fixed. `Serve` is the
  handler in its own imperative form, writing its reply into a response
  object and posting through a Telegram client object.
*/
module Handler {
  import opened Wrappers
  import Fields
  import Message
  import MarkdownV2

  const ReceiverLimit: nat := 80
  const MessageLimit: nat := 2000
  const SenderLimit: nat := 60
  const SourceLimit: nat := 100

  /** A request body: missing, something other than an object, or an object with the form fields. */
  datatype Body =
    | Missing
    | NotAnObject
    | Form(receiver: Option<string>, message: Option<string>, sender: Option<string>, source: Option<string>)

  datatype Request = Request(httpMethod: string, body: Body)

  /** The bot token and chat id read from the environment. */
  datatype Config = Config(botToken: Option<string>, chatId: Option<string>)

  /** The JSON body Telegram answers with; `result` is kept as opaque JSON text. */
  datatype TelegramAnswer = TelegramAnswer(ok: bool, description: Option<string>, result: Option<string>)

  /** What the outbound call produced: no usable answer at all, or an HTTP answer with its JSON. */
  datatype Upstream =
    | TransportFailure
    | Response(httpOk: bool, answer: TelegramAnswer)

  datatype ReplyBody =
    | Error(error: string)
    | TelegramError(error: string, tg: TelegramAnswer)
    | Delivered(result: Option<string>)

  datatype Reply = Reply(status: int, body: ReplyBody)

  /** The `sendMessage` call: where it goes and the JSON payload it carries. */
  datatype Outbound = Outbound(url: string, chatId: string, text: string, parseMode: string)

  /** Either the handler answers at once, or it makes the outbound call. */
  datatype Step = Respond(reply: Reply) | Post(out: Outbound)

  /** A JavaScript value that is a non-empty string; absent and empty values are falsy. */
  predicate Truthy(v: Option<string>) {
    v.Some? && v.value != ""
  }

  /** `(v || '')`. */
  function OrEmpty(v: Option<string>): (r: string)
    ensures Truthy(v) <==> r != ""
    ensures Truthy(v) ==> r == v.value
  {
    if Truthy(v) then v.value else ""
  }

  predicate Configured(cfg: Config) {
    Truthy(cfg.botToken) && Truthy(cfg.chatId)
  }

  /** The four fields of a form body, each cut to its limit and trimmed. */
  function Normalized(body: Body): (sub: Message.Submission)
    requires body.Form?
    ensures |sub.receiver| <= ReceiverLimit && Fields.Trimmed(sub.receiver)
    ensures |sub.message| <= MessageLimit && Fields.Trimmed(sub.message)
    ensures sub.sender.Some? ==> |sub.sender.value| <= SenderLimit && Fields.Trimmed(sub.sender.value)
    ensures |sub.source| <= SourceLimit && Fields.Trimmed(sub.source)
    ensures sub.sender.None? <==> !Truthy(body.sender)
  {
    Message.Submission(
      Fields.Normalize(OrEmpty(body.receiver), ReceiverLimit),
      Fields.Normalize(OrEmpty(body.message), MessageLimit),
      if Truthy(body.sender) then Some(Fields.Normalize(body.sender.value, SenderLimit)) else None,
      if Truthy(body.source) then Fields.Normalize(body.source.value, SourceLimit) else "")
  }

  /**
    Each field comes from its own input: `(v || '')` cut and trimmed for the
    receiver, message and source; for the sender, null when its input is
    falsy and otherwise its input cut and trimmed.
  */
  lemma NormalizedFieldwise(body: Body)
    requires body.Form?
    ensures Normalized(body).receiver == Fields.Normalize(OrEmpty(body.receiver), ReceiverLimit)
    ensures Normalized(body).message == Fields.Normalize(OrEmpty(body.message), MessageLimit)
    ensures Truthy(body.sender) ==> Normalized(body).sender == Some(Fields.Normalize(body.sender.value, SenderLimit))
    ensures Normalized(body).source == Fields.Normalize(OrEmpty(body.source), SourceLimit)
  {
    Fields.TrimEmpty([]);
  }

  /** A request that passes every input check: a POST with a form whose receiver and message survive normalisation. */
  predicate ValidInput(req: Request) {
    req.httpMethod == "POST" && req.body.Form?
    && Normalized(req.body).receiver != "" && Normalized(req.body).message != ""
  }

  function SendMessageUrl(token: string): string {
    "https://api.telegram.org/bot" + token + "/sendMessage"
  }

  /**
    Which metadata line the text carries: the one the handler writes, which
    Telegram cannot parse, or the corrected one.
  */
  datatype Template = AsWritten | Corrected

  /** The last line of the text under `template`. */
  function MetaFor(template: Template, source: string, timestamp: string): string {
    match template
    case AsWritten => Message.MetaLineAsWritten(source, timestamp)
    case Corrected => Message.MetaLine(source, timestamp)
  }

  /** The text posted for `sub` under `template`. */
  function Compose(template: Template, sub: Message.Submission, timestamp: string): string {
    match template
    case AsWritten => Message.TextAsWritten(sub, timestamp)
    case Corrected => Message.Text(sub, timestamp)
  }

  /** Everything the handler does before the outbound call, in its fail-fast order. */
  function Plan(req: Request, cfg: Config, template: Template, timestamp: string): (r: Step)
    ensures req.httpMethod != "POST" ==> r == Respond(Reply(405, Error("Method not allowed")))
    ensures req.httpMethod == "POST" && !req.body.Form? ==> r == Respond(Reply(400, Error("Invalid body")))
    ensures req.httpMethod == "POST" && req.body.Form? && !ValidInput(req) ==>
      r == Respond(Reply(400, Error("Both receiver and message are required")))
    ensures r.Post? <==> ValidInput(req) && Configured(cfg)
    ensures ValidInput(req) && !Configured(cfg) ==>
      r == Respond(Reply(500, Error("Server not configured (missing token or chat id)")))
    ensures r.Post? ==> r.out.url == SendMessageUrl(cfg.botToken.value)
    ensures r.Post? ==> r.out.chatId == cfg.chatId.value && r.out.parseMode == "MarkdownV2"
    ensures r.Post? ==> r.out.text == Compose(template, Normalized(req.body), timestamp)
  {
    if req.httpMethod != "POST" then Respond(Reply(405, Error("Method not allowed")))
    else if !req.body.Form? then Respond(Reply(400, Error("Invalid body")))
    else
      var sub := Normalized(req.body);
      if sub.receiver == "" || sub.message == "" then
        Respond(Reply(400, Error("Both receiver and message are required")))
      else if !Configured(cfg) then
        Respond(Reply(500, Error("Server not configured (missing token or chat id)")))
      else
        Post(Outbound(SendMessageUrl(cfg.botToken.value), cfg.chatId.value,
                      Compose(template, sub, timestamp), "MarkdownV2"))
  }

  /** `respJson.description || 'Telegram API error'`. */
  function ErrorText(answer: TelegramAnswer): (r: string)
    ensures r != ""
    ensures Truthy(answer.description) ==> r == answer.description.value
    ensures !Truthy(answer.description) ==> r == "Telegram API error"
  {
    if Truthy(answer.description) then answer.description.value else "Telegram API error"
  }

  /** The reply once the outbound call has been made. */
  function Finish(u: Upstream): (r: Reply)
    ensures r.status == 200 <==> u.Response? && u.httpOk && u.answer.ok
    ensures r.status == 502 <==> u.Response? && !(u.httpOk && u.answer.ok)
    ensures r.status == 500 <==> u.TransportFailure?
    ensures r.status == 200 ==> r.body == Delivered(u.answer.result)
    ensures r.status == 502 ==> r.body == TelegramError(ErrorText(u.answer), u.answer) && r.body.error != ""
    ensures u.TransportFailure? ==> r == Reply(500, Error("Internal server error"))
  {
    match u
    case TransportFailure => Reply(500, Error("Internal server error"))
    case Response(httpOk, answer) =>
      if !httpOk || !answer.ok then Reply(502, TelegramError(ErrorText(answer), answer))
      else Reply(200, Delivered(answer.result))
  }

  /** The handler's whole decision, given what the outbound call would produce. */
  function Handle(req: Request, cfg: Config, template: Template, timestamp: string, u: Upstream): (r: Reply)
    ensures r.status in {200, 400, 405, 500, 502}
    ensures r.status == 200 ==> ValidInput(req) && Configured(cfg)
  {
    match Plan(req, cfg, template, timestamp)
    case Respond(reply) => reply
    case Post(_) => Finish(u)
  }

  // ---------------------------------------------------------------------------
  // The fail-fast order
  // ---------------------------------------------------------------------------

  /** Any method but POST is refused, whatever the body, the configuration or Telegram. */
  lemma MethodRefusedFirst(req: Request, cfg: Config, template: Template, timestamp: string, u: Upstream)
    requires req.httpMethod != "POST"
    ensures Handle(req, cfg, template, timestamp, u) == Reply(405, Error("Method not allowed"))
  {
  }

  /** The 400 replies: a body that is not an object, or a receiver or message that normalises to nothing. */
  lemma InvalidInputRefused(req: Request, cfg: Config, template: Template, timestamp: string, u: Upstream)
    requires req.httpMethod == "POST" && !ValidInput(req)
    ensures Handle(req, cfg, template, timestamp, u).status == 400
    ensures Handle(req, cfg, template, timestamp, u).body ==
      Error(if req.body.Form? then "Both receiver and message are required" else "Invalid body")
  {
  }

  /**
    The configuration is consulted only once the input is valid: an invalid
    request gets the same reply whatever the token and chat id.
  */
  lemma ConfigCheckedAfterInput(req: Request, cfg1: Config, cfg2: Config, template: Template, timestamp: string)
    requires !ValidInput(req)
    ensures Plan(req, cfg1, template, timestamp) == Plan(req, cfg2, template, timestamp)
    ensures Plan(req, cfg1, template, timestamp).Respond? && Plan(req, cfg1, template, timestamp).reply.status != 500
  {
  }

  /** No outbound call is made unless the input is valid and the server configured; a reply given early ignores Telegram. */
  lemma NoCallUnlessValid(req: Request, cfg: Config, template: Template, timestamp: string, u1: Upstream, u2: Upstream)
    requires !(ValidInput(req) && Configured(cfg))
    ensures Plan(req, cfg, template, timestamp).Respond?
    ensures Handle(req, cfg, template, timestamp, u1) == Handle(req, cfg, template, timestamp, u2)
  {
  }

  /** A request that passes every check gets exactly what Telegram's answer maps to. */
  lemma ValidRequestForwarded(req: Request, cfg: Config, template: Template, timestamp: string, u: Upstream)
    requires ValidInput(req) && Configured(cfg)
    ensures Handle(req, cfg, template, timestamp, u) == Finish(u)
  {
  }

  /** The two templates make the same decisions and the same call; only the text of the call differs. */
  lemma TemplateOnlyChangesText(req: Request, cfg: Config, timestamp: string)
    ensures Plan(req, cfg, AsWritten, timestamp).Post? == Plan(req, cfg, Corrected, timestamp).Post?
    ensures Plan(req, cfg, AsWritten, timestamp).Respond? ==>
      Plan(req, cfg, AsWritten, timestamp) == Plan(req, cfg, Corrected, timestamp)
    ensures Plan(req, cfg, AsWritten, timestamp).Post? ==>
      Plan(req, cfg, AsWritten, timestamp).out.(text := "") == Plan(req, cfg, Corrected, timestamp).out.(text := "")
  {
  }

  /** The six lines of the text posted for a form request. */
  function SentLines(req: Request, template: Template, timestamp: string): seq<string>
    requires req.body.Form?
  {
    var sub := Normalized(req.body);
    Message.Lines(sub, MetaFor(template, sub.source, timestamp))
  }

  /**
    With no sender, an empty one or one that is only whitespace, the "From"
    line of the posted text is the `_Anonymous_` placeholder.
  */
  lemma AnonymousWithoutSender(req: Request, cfg: Config, template: Template, timestamp: string)
    requires ValidInput(req) && Configured(cfg)
    requires Normalized(req.body).sender.None? || Normalized(req.body).sender.value == ""
    ensures Plan(req, cfg, template, timestamp).out.text == Message.Join(SentLines(req, template, timestamp), "\n")
    ensures SentLines(req, template, timestamp)[2] == "*From:* _Anonymous_"
  {
    var sub := Normalized(req.body);
    Message.AnonymousFromLine(sub, MetaFor(template, sub.source, timestamp));
  }

  /** With a sender, the "From" line never shows the placeholder, even for a sender named `_Anonymous_`. */
  lemma SenderNeverAnonymous(req: Request, template: Template, timestamp: string)
    requires req.body.Form? && Truthy(req.body.sender)
    requires Normalized(req.body).sender.value != ""
    ensures SentLines(req, template, timestamp)[2] != "*From:* _Anonymous_"
  {
    var sub := Normalized(req.body);
    Message.SenderNeverShownAsAnonymous(sub, MetaFor(template, sub.source, timestamp));
  }

  // ---------------------------------------------------------------------------
  // The template as written and the corrected one
  // ---------------------------------------------------------------------------

  /** MarkdownV2 accepts the posted text exactly when it carries the corrected metadata line. */
  lemma PostedTextAccepted(req: Request, cfg: Config, template: Template, timestamp: string)
    requires Plan(req, cfg, template, timestamp).Post?
    ensures MarkdownV2.Accepted(Plan(req, cfg, template, timestamp).out.text) <==> template.Corrected?
  {
    var sub := Normalized(req.body);
    if template.Corrected? {
      Message.TextAccepted(sub, timestamp);
    } else {
      Message.TextAsWrittenRefused(sub, timestamp);
    }
  }

  /**
    Telegram as its MarkdownV2 parser behaves: a text it cannot parse is
    answered with `ok: false`.
  */
  predicate ParsesMarkdown(text: string, u: Upstream) {
    !MarkdownV2.Accepted(text) ==> u.Response? && !u.answer.ok
  }

  /**
    As written, every request that passes every check is answered 502 by a
    Telegram that parses MarkdownV2: no confession is ever delivered.
  */
  lemma AsWrittenNeverDelivers(req: Request, cfg: Config, timestamp: string, u: Upstream)
    requires ValidInput(req) && Configured(cfg)
    requires ParsesMarkdown(Plan(req, cfg, AsWritten, timestamp).out.text, u)
    ensures Handle(req, cfg, AsWritten, timestamp, u).status == 502
  {
    PostedTextAccepted(req, cfg, AsWritten, timestamp);
  }

  /**
    With the corrected template the same Telegram is free to deliver: the
    text parses, so an answer with `ok: true` is consistent with it and
    gives 200 with Telegram's result.
  */
  lemma CorrectedCanDeliver(req: Request, cfg: Config, template: Template, timestamp: string, result: Option<string>)
    requires ValidInput(req) && Configured(cfg) && template.Corrected?
    ensures ParsesMarkdown(Plan(req, cfg, template, timestamp).out.text, Response(true, TelegramAnswer(true, None, result)))
    ensures Handle(req, cfg, template, timestamp, Response(true, TelegramAnswer(true, None, result))) == Reply(200, Delivered(result))
  {
    PostedTextAccepted(req, cfg, template, timestamp);
  }

  // ---------------------------------------------------------------------------
  // The handler in its imperative form
  // ---------------------------------------------------------------------------

  /** The response object: `res.status(code).json(body)` sets its two parts. */
  class ServerResponse {
    var status: int
    var body: Option<ReplyBody>

    constructor()
      ensures status == 200 && body == None
    {
      status := 200;
      body := None;
    }

    method Send(code: int, payload: ReplyBody)
      modifies this
      ensures status == code && body == Some(payload)
    {
      status := code;
      body := Some(payload);
    }
  }

  /** The Telegram Bot API as the handler sees it: it records each call and answers with `outcome`. */
  class TelegramClient {
    var sent: seq<Outbound>
    var outcome: Upstream

    constructor(outcome: Upstream)
      ensures sent == [] && this.outcome == outcome
    {
      sent := [];
      this.outcome := outcome;
    }

    method SendMessage(out: Outbound) returns (u: Upstream)
      modifies this
      ensures sent == old(sent) + [out] && outcome == old(outcome)
      ensures u == outcome
    {
      sent := sent + [out];
      u := outcome;
    }
  }

  /**
    The handler: checks in order, answering at the first failure; otherwise
    posts once to Telegram and maps the answer. It replies exactly as
    `Handle` says and calls Telegram exactly when `Plan` says. With
    `AsWritten` it is the handler as the source has it.
  */
  method Serve(req: Request, cfg: Config, template: Template, timestamp: string, tg: TelegramClient, res: ServerResponse)
    modifies tg, res
    ensures res.body.Some? && Reply(res.status, res.body.value) == Handle(req, cfg, template, timestamp, old(tg.outcome))
    ensures tg.sent == old(tg.sent) +
      (if Plan(req, cfg, template, timestamp).Post? then [Plan(req, cfg, template, timestamp).out] else [])
    ensures tg.outcome == old(tg.outcome)
  {
    if req.httpMethod != "POST" {
      res.Send(405, Error("Method not allowed"));
      return;
    }
    var body := req.body;
    if !body.Form? {
      res.Send(400, Error("Invalid body"));
      return;
    }
    var sub := Normalized(body);
    if sub.receiver == "" || sub.message == "" {
      res.Send(400, Error("Both receiver and message are required"));
      return;
    }
    if !Truthy(cfg.botToken) || !Truthy(cfg.chatId) {
      res.Send(500, Error("Server not configured (missing token or chat id)"));
      return;
    }
    Deliver(req, cfg, template, timestamp, tg, res);
  }

  /** The part of the handler past every check: build the text and forward it. */
  method Deliver(req: Request, cfg: Config, template: Template, timestamp: string, tg: TelegramClient, res: ServerResponse)
    requires ValidInput(req) && Configured(cfg)
    modifies tg, res
    ensures res.body.Some? && Reply(res.status, res.body.value) == Handle(req, cfg, template, timestamp, old(tg.outcome))
    ensures tg.sent == old(tg.sent) + [Plan(req, cfg, template, timestamp).out]
    ensures tg.outcome == old(tg.outcome)
  {
    var text := Compose(template, Normalized(req.body), timestamp);
    var out := Outbound(SendMessageUrl(cfg.botToken.value), cfg.chatId.value, text, "MarkdownV2");
    PlanPosts(req, cfg, template, timestamp);
    Forward(out, tg, res);
  }

  /** The call a valid request to a configured server leads to. */
  lemma PlanPosts(req: Request, cfg: Config, template: Template, timestamp: string)
    requires ValidInput(req) && Configured(cfg)
    ensures Plan(req, cfg, template, timestamp) == Post(Outbound(SendMessageUrl(cfg.botToken.value), cfg.chatId.value,
      Compose(template, Normalized(req.body), timestamp), "MarkdownV2"))
  {
  }

  /** The outbound call and the reply it leads to. */
  method Forward(out: Outbound, tg: TelegramClient, res: ServerResponse)
    modifies tg, res
    ensures res.body.Some? && Reply(res.status, res.body.value) == Finish(old(tg.outcome))
    ensures tg.sent == old(tg.sent) + [out] && tg.outcome == old(tg.outcome)
  {
    var u := tg.SendMessage(out);
    Answer(u, res);
  }

  /** The handler's last step: Telegram's answer, or its absence, written into the response. */
  method Answer(u: Upstream, res: ServerResponse)
    modifies res
    ensures res.body.Some? && Reply(res.status, res.body.value) == Finish(u)
  {
    match u {
      case TransportFailure =>
        res.Send(500, Error("Internal server error"));
      case Response(httpOk, answer) =>
        if !httpOk || !answer.ok {
          res.Send(502, TelegramError(ErrorText(answer), answer));
          return;
        }
        res.Send(200, Delivered(answer.result));
    }
  }
}
