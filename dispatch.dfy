/**
  The message helpers of dismob/log.py: `safe_send_message`, `safe_respond`, `safe_followup`,
  `missing_if_none`, and `client`, `success` and `failure`, which are built on them.

  The remote side is an oracle: each request the code issues meets an Outcome, either a
  handle or one of the exceptions the code tells apart. A call is a trace of events (requests
  issued, entries handed to the logger, in order) and an exit (a returned value or an
  exception that escapes). `setUp` tells whether setup_logger has run; without it every
  logging call raises RuntimeError.
*/
module Dispatch {
  import opened Wrappers
  import opened Logging
  import opened Colors

  /** What the remote API returns for a delivered message or response. */
  datatype Handle = Handle(id: nat)

  /** A discord.ui.View, kept opaque. */
  datatype UiView = UiView(id: nat)

  /** A discord.File, kept opaque. */
  datatype Attachment = Attachment(filename: string)

  datatype Footer = Footer(text: string, iconUrl: string)

  /** discord.Embed, with the fields `client` sets. */
  datatype Embed = Embed(title: Option<string>, colour: Colour, description: string, footer: Option<Footer>)

  datatype Channel = Channel(name: string)

  datatype Interaction = Interaction(id: nat, applicationId: nat, token: string)

  datatype Author = Author(displayName: string, avatarUrl: string)

  /** The `ctx` of client/success/failure: a command context (with its author) or an interaction. */
  datatype Target = Context(author: Author) | FromInteraction(interaction: Interaction)

  /** The optional parts of a message; any of them may be absent. */
  datatype Payload = Payload(content: Option<string>, embed: Option<Embed>, view: Option<UiView>, file: Option<Attachment>)

  /** A keyword argument as discord.py receives it: its MISSING sentinel or a value. */
  datatype Arg<T> = Missing | Given(value: T)

  /** missing_if_none: None becomes MISSING, any other value passes through. */
  function MissingIfNone<T>(v: Option<T>): (r: Arg<T>)
    ensures r.Missing? <==> v.None?
    ensures v.Some? ==> r == Given(v.value)
  {
    match v
    case None => Missing
    case Some(x) => Given(x)
  }

  /** The arguments of `send_message` / `followup.send`: the content as is, the rest through missing_if_none. */
  datatype SendArgs = SendArgs(content: Option<string>, embed: Arg<Embed>, view: Arg<UiView>, file: Arg<Attachment>, ephemeral: bool)

  function ArgsOf(p: Payload, ephemeral: bool): SendArgs {
    SendArgs(p.content, MissingIfNone(p.embed), MissingIfNone(p.view), MissingIfNone(p.file), ephemeral)
  }

  /** The coroutine handed to the rate limiter. */
  datatype PendingCall =
    | ResponseSendMessage(interaction: Interaction, args: SendArgs) // interaction.response.send_message(...)
    | FollowupSend(interaction: Interaction, args: SendArgs)        // interaction.followup.send(...)

  /** A request issued to the remote side. */
  datatype Request =
    | SafeSend(channel: Channel, content: Option<string>, embed: Option<Embed>, view: Option<UiView>, file: Option<Attachment>)
    | Execute(call: PendingCall, route: string, majorParams: map<string, int>)
    | ContextSend(card: Embed, deleteAfter: int)

  const CallbackRoute: string := "POST /interactions/{interaction_id}/{interaction_token}/callback"
  const WebhookRoute: string := "POST /webhooks/{application_id}/{interaction_token}"

  /** How the remote side answers one request: a handle, or the exception it raises. */
  datatype Outcome =
    | Ok(handle: Handle)
    | Forbidden(desc: string)
    | NotFound(desc: string)
    | InteractionResponded(desc: string)
    | Other(desc: string)

  datatype Event = Sent(request: Request) | Wrote(entry: Entry)

  /** One call: what it did, in order, and how it ended. */
  datatype Run<T> = Run(trace: seq<Event>, exit: Exit<T>)

  function Requests(trace: seq<Event>): seq<Request> {
    if trace == [] then []
    else (if trace[0].Sent? then [trace[0].request] else []) + Requests(trace[1..])
  }

  function Entries(trace: seq<Event>): seq<Entry> {
    if trace == [] then []
    else (if trace[0].Wrote? then [trace[0].entry] else []) + Entries(trace[1..])
  }

  function Written(log: seq<Entry>): (trace: seq<Event>)
    ensures |trace| == |log|
  {
    if log == [] then [] else [Wrote(log[0])] + Written(log[1..])
  }

  /** Issue one request, then go on with `rest`. */
  function After<T>(r: Request, rest: Run<T>): Run<T> {
    Run([Sent(r)] + rest.trace, rest.exit)
  }

  function Done<T>(value: T): Run<T> {
    Run([], Returned(value))
  }

  /** One guarded logging call, then `rest`; when the guard raises, `rest` never happens. */
  function Log<T>(setUp: bool, e: Entry, rest: Run<T>): Run<T> {
    var g := Guard(setUp, e, rest);
    match g.exit
    case Raised(err) => Run(Written(g.log), Raised(err))
    case Returned(next) => Run(Written(g.log) + next.trace, next.exit)
  }

  /** error(msg): the helper asks for a stack trace by default. */
  function ErrorEntry(msg: string): Entry {
    Entry(ERROR, msg, true)
  }

  predicate IsError(e: Entry) {
    e.level == ERROR
  }

  // ---------------------------------------------------------------------------------------
  // Facts about traces

  lemma {:induction false} RequestsAppend(a: seq<Event>, b: seq<Event>)
    ensures Requests(a + b) == Requests(a) + Requests(b)
  {
    if a != [] {
      assert (a + b)[1..] == a[1..] + b;
      RequestsAppend(a[1..], b);
    } else {
      assert a + b == b;
    }
  }

  lemma {:induction false} EntriesAppend(a: seq<Event>, b: seq<Event>)
    ensures Entries(a + b) == Entries(a) + Entries(b)
  {
    if a != [] {
      assert (a + b)[1..] == a[1..] + b;
      EntriesAppend(a[1..], b);
    } else {
      assert a + b == b;
    }
  }

  /** Issuing a request adds it in front and logs nothing. */
  lemma AfterParts<T>(r: Request, rest: Run<T>)
    ensures Requests(After(r, rest).trace) == [r] + Requests(rest.trace)
    ensures Entries(After(r, rest).trace) == Entries(rest.trace)
  {
    RequestsAppend([Sent(r)], rest.trace);
    EntriesAppend([Sent(r)], rest.trace);
  }

  /** A guarded log call adds its entry in front (when set up) and issues nothing. */
  lemma LogParts<T>(setUp: bool, e: Entry, rest: Run<T>)
    ensures setUp ==> Log(setUp, e, rest) == Run([Wrote(e)] + rest.trace, rest.exit)
    ensures !setUp ==> Log(setUp, e, rest) == Run([], Raised(LoggerNotSetUp))
    ensures setUp ==> Entries(Log(setUp, e, rest).trace) == [e] + Entries(rest.trace)
    ensures setUp ==> Requests(Log(setUp, e, rest).trace) == Requests(rest.trace)
  {
    assert Written([e]) == [Wrote(e)];
    assert Written([]) == [];
    RequestsAppend([Wrote(e)], rest.trace);
    EntriesAppend([Wrote(e)], rest.trace);
  }

  // ---------------------------------------------------------------------------------------
  // safe_send_message

  /**
    safe_send_message: one send through the rate limiter, whatever happens. With a logger set
    up it never raises: a delivered message gives one info entry naming the channel and the
    handle; a refusal, a missing channel or any other failure gives one error entry and None,
    the first two with their own message naming the channel, tested before the generic one.
    Without a logger it raises RuntimeError after the send: the info call raises inside the
    try, and the error call of the generic handler raises again.
  */
  function SafeSendMessage(setUp: bool, channel: Channel, p: Payload, sent: Outcome): (r: Run<Option<Handle>>)
    ensures Requests(r.trace) == [SafeSend(channel, p.content, p.embed, p.view, p.file)]
    ensures r.exit.Raised? <==> !setUp
    ensures !setUp ==> r.exit.error == LoggerNotSetUp && Entries(r.trace) == []
    ensures setUp ==> |Entries(r.trace)| == 1
    ensures setUp ==> r.exit == Returned(if sent.Ok? then Some(sent.handle) else None)
    ensures setUp && sent.Ok? ==> Entries(r.trace)[0] == Entry(INFO, "Message sent in " + channel.name, false)
    ensures setUp && !sent.Ok? ==> IsError(Entries(r.trace)[0]) && Entries(r.trace)[0].stackInfo
    ensures setUp && sent.Forbidden? ==>
      Entries(r.trace)[0].msg == "Bot has not the permission to send messages in " + channel.name
    ensures setUp && sent.NotFound? ==> Entries(r.trace)[0].msg == "Channel " + channel.name + " not found"
    ensures setUp && (sent.Other? || sent.InteractionResponded?) ==>
      Entries(r.trace)[0].msg == "Error when sending message: " + sent.desc
  {
    var request := SafeSend(channel, p.content, p.embed, p.view, p.file);
    var e := match sent
      case Ok(_) => Entry(INFO, "Message sent in " + channel.name, false)
      case Forbidden(_) => ErrorEntry("Bot has not the permission to send messages in " + channel.name)
      case NotFound(_) => ErrorEntry("Channel " + channel.name + " not found")
      case _ => ErrorEntry("Error when sending message: " + sent.desc);
    var result := if sent.Ok? then Some(sent.handle) else None;
    LogParts(setUp, e, Done(result));
    AfterParts(request, Log(setUp, e, Done(result)));
    After(request, Log(setUp, e, Done(result)))
  }

  // ---------------------------------------------------------------------------------------
  // safe_followup and safe_respond

  function FollowupRequest(i: Interaction, p: Payload, ephemeral: bool): Request {
    Execute(FollowupSend(i, ArgsOf(p, ephemeral)), WebhookRoute, map["application_id" := i.applicationId as int])
  }

  function RespondRequest(i: Interaction, p: Payload, ephemeral: bool): Request {
    Execute(ResponseSendMessage(i, ArgsOf(p, ephemeral)), CallbackRoute, map["interaction_id" := i.id as int])
  }

  /**
    safe_followup: one followup request on the webhook route, bucketed by the application id.
    Success logs nothing and returns the handle, with or without a logger; any failure gives
    one error entry and None, or RuntimeError when no logger is set up.
  */
  function SafeFollowup(setUp: bool, i: Interaction, p: Payload, ephemeral: bool, followup: Outcome)
    : (r: Run<Option<Handle>>)
    ensures Requests(r.trace) == [FollowupRequest(i, p, ephemeral)]
    ensures followup.Ok? ==> r.exit == Returned(Some(followup.handle)) && Entries(r.trace) == []
    ensures r.exit.Raised? <==> !setUp && !followup.Ok?
    ensures r.exit.Raised? ==> r.exit.error == LoggerNotSetUp && Entries(r.trace) == []
    ensures setUp && !followup.Ok? ==>
      r.exit == Returned(None) && Entries(r.trace) == [ErrorEntry("Error during the followup: " + followup.desc)]
  {
    var request := FollowupRequest(i, p, ephemeral);
    match followup
    case Ok(h) =>
      AfterParts(request, Done(Some(h)));
      After(request, Done(Some(h)))
    case _ =>
      var e := ErrorEntry("Error during the followup: " + followup.desc);
      LogParts(setUp, e, Done<Option<Handle>>(None));
      AfterParts(request, Log(setUp, e, Done<Option<Handle>>(None)));
      After(request, Log(setUp, e, Done<Option<Handle>>(None)))
  }

  /**
    safe_respond as written: one request on the interaction-callback route, bucketed by the
    interaction id. When the interaction was already responded to, it calls safe_followup with
    the same arguments, logs nothing of its own, and then drops the followup's result (no
    `return`), so it returns None even when the followup delivered.
  */
  function SafeRespondAsWritten(setUp: bool, i: Interaction, p: Payload, ephemeral: bool,
                                respond: Outcome, followup: Outcome): (r: Run<Option<Handle>>)
    ensures |Requests(r.trace)| >= 1 && Requests(r.trace)[0] == RespondRequest(i, p, ephemeral)
    ensures respond.Ok? ==> r == Run([Sent(RespondRequest(i, p, ephemeral))], Returned(Some(respond.handle)))
    ensures respond.InteractionResponded? ==>
      var f := SafeFollowup(setUp, i, p, ephemeral, followup);
      && r.trace == After(RespondRequest(i, p, ephemeral), f).trace
      && r.exit == (if f.exit.Raised? then f.exit else Returned(None))
    ensures respond.InteractionResponded? ==> r.exit.Returned? ==> r.exit.value == None
    ensures !respond.Ok? && !respond.InteractionResponded? ==>
      && Requests(r.trace) == [RespondRequest(i, p, ephemeral)]
      && (setUp ==> r.exit == Returned(None)
                    && Entries(r.trace) == [ErrorEntry("Error when responding to the interaction: " + respond.desc)])
      && (!setUp ==> r.exit == Raised(LoggerNotSetUp) && Entries(r.trace) == [])
  {
    var request := RespondRequest(i, p, ephemeral);
    match respond
    case Ok(h) => After(request, Done(Some(h)))
    case InteractionResponded(_) =>
      var f := SafeFollowup(setUp, i, p, ephemeral, followup);
      AfterParts(request, f);
      After(request, Run(f.trace, if f.exit.Raised? then f.exit else Returned(None)))
    case _ =>
      var e := ErrorEntry("Error when responding to the interaction: " + respond.desc);
      LogParts(setUp, e, Done<Option<Handle>>(None));
      AfterParts(request, Log(setUp, e, Done<Option<Handle>>(None)));
      After(request, Log(setUp, e, Done<Option<Handle>>(None)))
  }

  /**
    safe_respond with the followup's result returned. One callback request; if it is answered,
    its handle comes back and nothing is logged. If the slot was already used, the call is the
    followup itself: no error of its own, and the followup's requests, entries and result.
    Any other failure gives one error entry and None, or RuntimeError without a logger.
  */
  function SafeRespond(setUp: bool, i: Interaction, p: Payload, ephemeral: bool,
                       respond: Outcome, followup: Outcome): (r: Run<Option<Handle>>)
    ensures |Requests(r.trace)| >= 1 && Requests(r.trace)[0] == RespondRequest(i, p, ephemeral)
    ensures respond.Ok? ==> r == Run([Sent(RespondRequest(i, p, ephemeral))], Returned(Some(respond.handle)))
    ensures respond.InteractionResponded? ==> r == After(RespondRequest(i, p, ephemeral), SafeFollowup(setUp, i, p, ephemeral, followup))
    ensures !respond.Ok? && !respond.InteractionResponded? ==>
      && Requests(r.trace) == [RespondRequest(i, p, ephemeral)]
      && (setUp ==> r.exit == Returned(None)
                    && Entries(r.trace) == [ErrorEntry("Error when responding to the interaction: " + respond.desc)])
      && (!setUp ==> r.exit == Raised(LoggerNotSetUp) && Entries(r.trace) == [])
  {
    var request := RespondRequest(i, p, ephemeral);
    match respond
    case Ok(h) => After(request, Done(Some(h)))
    case InteractionResponded(_) =>
      var f := SafeFollowup(setUp, i, p, ephemeral, followup);
      AfterParts(request, f);
      After(request, f)
    case _ =>
      var e := ErrorEntry("Error when responding to the interaction: " + respond.desc);
      LogParts(setUp, e, Done<Option<Handle>>(None));
      AfterParts(request, Log(setUp, e, Done<Option<Handle>>(None)));
      After(request, Log(setUp, e, Done<Option<Handle>>(None)))
  }

  /**
    Responding to an interaction whose slot is already used delivers exactly what a direct
    followup delivers (same followup request, same entries, same result), after the one
    refused callback request, and adds no error entry of its own.
  */
  lemma RespondFallbackIsFollowup(setUp: bool, i: Interaction, p: Payload, ephemeral: bool, d: string, followup: Outcome)
    ensures var r := SafeRespond(setUp, i, p, ephemeral, InteractionResponded(d), followup);
            var f := SafeFollowup(setUp, i, p, ephemeral, followup);
      && Requests(r.trace) == [RespondRequest(i, p, ephemeral), FollowupRequest(i, p, ephemeral)]
      && Entries(r.trace) == Entries(f.trace)
      && r.exit == f.exit
      && (followup.Ok? ==> forall k :: 0 <= k < |Entries(r.trace)| ==> !IsError(Entries(r.trace)[k]))
  {
    var f := SafeFollowup(setUp, i, p, ephemeral, followup);
    AfterParts(RespondRequest(i, p, ephemeral), f);
  }

  /**
    The code as written differs from the corrected call in one place only: after a fallback
    whose followup delivered, it returns None instead of the followup's handle. Requests and
    log entries are the same.
  */
  lemma AsWrittenDropsFollowupResult(setUp: bool, i: Interaction, p: Payload, ephemeral: bool,
                                     respond: Outcome, followup: Outcome)
    ensures var w := SafeRespondAsWritten(setUp, i, p, ephemeral, respond, followup);
            var c := SafeRespond(setUp, i, p, ephemeral, respond, followup);
      && w.trace == c.trace
      && (w.exit != c.exit <==> respond.InteractionResponded? && followup.Ok?)
      && (respond.InteractionResponded? && followup.Ok? ==>
            w.exit == Returned(None) && c.exit == Returned(Some(followup.handle)))
  {
  }

  /** The requests a call sends to the rate limiter, grouped as it groups them: route and major parameters. */
  function Bucket(r: Request): Option<(string, map<string, int>)> {
    if r.Execute? then Some((r.route, r.majorParams)) else None
  }

  /**
    Rate-limit buckets: callback requests of two interactions share a bucket exactly when the
    interaction ids agree, followups exactly when the application ids agree, and a callback
    never shares a bucket with a followup.
  */
  lemma RateBuckets(i: Interaction, j: Interaction, p: Payload, q: Payload, e: bool, f: bool)
    ensures Bucket(RespondRequest(i, p, e)) == Bucket(RespondRequest(j, q, f)) <==> i.id == j.id
    ensures Bucket(FollowupRequest(i, p, e)) == Bucket(FollowupRequest(j, q, f)) <==> i.applicationId == j.applicationId
    ensures Bucket(RespondRequest(i, p, e)) != Bucket(FollowupRequest(j, q, f))
  {
    if Bucket(RespondRequest(i, p, e)) == Bucket(RespondRequest(j, q, f)) {
      assert map["interaction_id" := i.id as int]["interaction_id"] == map["interaction_id" := j.id as int]["interaction_id"];
    }
    if Bucket(FollowupRequest(i, p, e)) == Bucket(FollowupRequest(j, q, f)) {
      assert map["application_id" := i.applicationId as int]["application_id"]
          == map["application_id" := j.applicationId as int]["application_id"];
    }
    assert |CallbackRoute| != |WebhookRoute|;
  }

  // ---------------------------------------------------------------------------------------
  // client, success, failure

  function ClientEmbed(target: Target, msg: string, title: Option<string>, colour: Colour): Embed {
    match target
    case Context(author) =>
      Embed(title, colour, msg, Some(Footer("Commande faites par " + author.displayName, author.avatarUrl)))
    case FromInteraction(_) => Embed(title, colour, msg, None)
  }

  /**
    client: an embed with the title, colour and message. A command context gets a footer naming
    its author and is sent directly with `delete_after`; nothing is logged and a failure is not
    caught. An interaction gets an ephemeral response through safe_respond as written, with no
    content and `delete_after` ignored, so after a fallback it returns None. `first` and
    `fallback` are the outcomes of the request issued first and, for an interaction, of the
    followup.
  */
  function Client(setUp: bool, target: Target, msg: string, title: Option<string> := None,
                  colour: Colour := DefaultColour, deleteAfter: int := 5, first: Outcome, fallback: Outcome)
    : (r: Run<Option<Handle>>)
    ensures target.Context? ==>
      && r.trace == [Sent(ContextSend(ClientEmbed(target, msg, title, colour), deleteAfter))]
      && r.exit == (if first.Ok? then Returned(Some(first.handle)) else Raised(Propagated(first.desc)))
    ensures target.FromInteraction? ==>
      r == SafeRespondAsWritten(setUp, target.interaction, Payload(None, Some(Embed(title, colour, msg, None)), None, None),
                                true, first, fallback)
    ensures target.FromInteraction? ==>
      && |Requests(r.trace)| >= 1
      && Requests(r.trace)[0] == RespondRequest(target.interaction, Payload(None, Some(Embed(title, colour, msg, None)), None, None), true)
      && (first.InteractionResponded? ==> r.exit.Returned? ==> r.exit.value == None)
  {
    var embed := ClientEmbed(target, msg, title, colour);
    match target
    case Context(_) =>
      var exit := if first.Ok? then Returned(Some(first.handle)) else Raised(Propagated(first.desc));
      Run([Sent(ContextSend(embed, deleteAfter))], exit)
    case FromInteraction(i) =>
      SafeRespondAsWritten(setUp, i, Payload(None, Some(embed), None, None), true, first, fallback)
  }

  /** client with safe_respond returning the followup's result: the context path is unchanged. */
  function CorrectedClient(setUp: bool, target: Target, msg: string, title: Option<string> := None,
                           colour: Colour := DefaultColour, deleteAfter: int := 5, first: Outcome, fallback: Outcome)
    : (r: Run<Option<Handle>>)
    ensures target.Context? ==> r == Client(setUp, target, msg, title, colour, deleteAfter, first, fallback)
    ensures target.FromInteraction? ==>
      r == SafeRespond(setUp, target.interaction, Payload(None, Some(Embed(title, colour, msg, None)), None, None),
                       true, first, fallback)
  {
    match target
    case Context(_) => Client(setUp, target, msg, title, colour, deleteAfter, first, fallback)
    case FromInteraction(i) =>
      SafeRespond(setUp, i, Payload(None, Some(ClientEmbed(target, msg, title, colour)), None, None), true, first, fallback)
  }

  /**
    client as written and corrected issue the same requests and write the same entries; their
    results differ exactly for an interaction already responded to whose followup delivered,
    where the code as written returns None instead of the followup's handle.
  */
  lemma ClientDropsFollowupResult(setUp: bool, target: Target, msg: string, title: Option<string>, colour: Colour,
                                  deleteAfter: int, first: Outcome, fallback: Outcome)
    ensures var w := Client(setUp, target, msg, title, colour, deleteAfter, first, fallback);
            var c := CorrectedClient(setUp, target, msg, title, colour, deleteAfter, first, fallback);
      && w.trace == c.trace
      && (w.exit != c.exit <==> target.FromInteraction? && first.InteractionResponded? && fallback.Ok?)
      && (target.FromInteraction? && first.InteractionResponded? && fallback.Ok? ==>
            w.exit == Returned(None) && c.exit == Returned(Some(fallback.handle)))
  {
    if target.FromInteraction? {
      var p := Payload(None, Some(Embed(title, colour, msg, None)), None, None);
      AsWrittenDropsFollowupResult(setUp, target.interaction, p, true, first, fallback);
    }
  }

  /** For an interaction, `delete_after` changes nothing. */
  lemma InteractionIgnoresDeleteAfter(setUp: bool, i: Interaction, msg: string, title: Option<string>, colour: Colour,
                                      d1: int, d2: int, first: Outcome, fallback: Outcome)
    ensures Client(setUp, FromInteraction(i), msg, title, colour, d1, first, fallback)
         == Client(setUp, FromInteraction(i), msg, title, colour, d2, first, fallback)
  {
  }

  /**
    success: the message is first logged at info level, then shown as a green "Success"
    embed through client. Without a logger nothing is sent and RuntimeError escapes.
  */
  function Success(setUp: bool, target: Target, msg: string, deleteAfter: int := 5, first: Outcome, fallback: Outcome)
    : (r: Run<Option<Handle>>)
    ensures !setUp ==> r == Run([], Raised(LoggerNotSetUp))
    ensures setUp ==>
      var c := Client(setUp, target, msg, Some(":white_check_mark: Success"), Named("green"), deleteAfter, first, fallback);
      && r.trace == [Wrote(Entry(INFO, msg, false))] + c.trace
      && Entries(r.trace) == [Entry(INFO, msg, false)] + Entries(c.trace)
      && Requests(r.trace) == Requests(c.trace)
      && r.exit == c.exit
  {
    var c := Client(setUp, target, msg, Some(":white_check_mark: Success"), Named("green"), deleteAfter, first, fallback);
    LogParts(setUp, Entry(INFO, msg, false), c);
    Log(setUp, Entry(INFO, msg, false), c)
  }

  /**
    failure: the message is first logged at error level (a stack trace only when asked for,
    not by default), then shown as a red "Error" embed through client.
  */
  function Failure(setUp: bool, target: Target, msg: string, deleteAfter: int := 5, stacktrace: bool := false,
                   first: Outcome, fallback: Outcome): (r: Run<Option<Handle>>)
    ensures !setUp ==> r == Run([], Raised(LoggerNotSetUp))
    ensures setUp ==>
      var c := Client(setUp, target, msg, Some(":x: Error"), Named("red"), deleteAfter, first, fallback);
      && r.trace == [Wrote(Entry(ERROR, msg, stacktrace))] + c.trace
      && Entries(r.trace) == [Entry(ERROR, msg, stacktrace)] + Entries(c.trace)
      && Requests(r.trace) == Requests(c.trace)
      && r.exit == c.exit
  {
    var c := Client(setUp, target, msg, Some(":x: Error"), Named("red"), deleteAfter, first, fallback);
    LogParts(setUp, Entry(ERROR, msg, stacktrace), c);
    Log(setUp, Entry(ERROR, msg, stacktrace), c)
  }

  /**
    The scenario of an interaction already responded to: `success` with content "done" is
    delivered through the followup, the only entry is the info line, and the caller gets None
    although the followup delivered; with the correction it would get the followup's handle.
  */
  lemma SuccessAfterResponseExample(i: Interaction, d: string, h: Handle)
    ensures var r := Success(true, FromInteraction(i), "done", 5, InteractionResponded(d), Ok(h));
      && r.exit == Returned(None)
      && Entries(r.trace) == [Entry(INFO, "done", false)]
      && |Requests(r.trace)| == 2 && Requests(r.trace)[1].call.FollowupSend?
    ensures CorrectedClient(true, FromInteraction(i), "done", Some(":white_check_mark: Success"), Named("green"), 5,
                            InteractionResponded(d), Ok(h)).exit == Returned(Some(h))
  {
    var p := Payload(None, Some(Embed(Some(":white_check_mark: Success"), Named("green"), "done", None)), None, None);
    RespondFallbackIsFollowup(true, i, p, true, d, Ok(h));
    AsWrittenDropsFollowupResult(true, i, p, true, InteractionResponded(d), Ok(h));
  }
}
