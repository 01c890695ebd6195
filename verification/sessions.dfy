/** The per-host session (`lib/session.js`): connection reuse policy,
    operation dispatch and the shape of completion reports. Every operation is
    a pure step from a session to the next session plus the collaborator
    events it issued. */
module Sessions {
  import opened Wrappers
  import opened Values
  import opened Trace
  import ConnectionInfo

  /** The `options` argument of the constructor. */
  datatype SessionOptions = SessionOptions(keepAlive: Value, ssh: Option<Object>, ejs: Option<Object>)

  /** The options `{}` a session gets when the caller passed none. */
  const NoSessionOptions := SessionOptions(Undefined, None, None)

  /** A session. `keepAliveClient` is the cached client, `nextId` the identity
      the next `new SSHClient()` receives. */
  datatype Session = Session(
    host: string,
    auth: ConnectionInfo.Auth,
    options: SessionOptions,
    keepAlive: bool,
    keepAliveClient: Option<ClientId>,
    nextId: ClientId)

  /** The session after an operation and the events the operation issued. */
  datatype Step = Step(session: Session, trace: seq<Event>)

  /** The file reader and the template engine, as uninterpreted functions. */
  datatype Collaborators = Collaborators(
    readFile: string -> Result<string, Error>,
    render: (string, Object, Object) -> Result<string, Error>)

  /** What an operation's `options` argument is at run time. */
  datatype OptionsArg = FunctionArg(fn: nat) | ObjectArg(options: OpOptions) | FalsyArg

  /** The options and callback an operation works with after overload resolution. */
  datatype Args = Args(options: OpOptions, callback: Handler)

  /** The session as the constructor leaves it. */
  function New(host: string, auth: ConnectionInfo.Auth, options: Option<SessionOptions>): (s: Session)
    ensures s.keepAlive <==> options.Some? && Truthy(options.value.keepAlive)
    ensures s.keepAliveClient == None
    ensures options.Some? ==> s.options == options.value
    ensures options.None? ==> s.options == NoSessionOptions
    ensures s.host == host && s.auth == auth && s.nextId == 0
  {
    var opts := options.GetOr(NoSessionOptions);
    Session(host, auth, opts, Truthy(opts.keepAlive), None, 0)
  }

  /** Host, credentials, options and policy: what no operation changes. */
  predicate SameConfig(a: Session, b: Session) {
    a.host == b.host && a.auth == b.auth && a.options == b.options && a.keepAlive == b.keepAlive
  }

  function SshConnInfo(s: Session): Object {
    ConnectionInfo.Resolve(s.host, s.auth, s.options.ssh)
  }

  /** The renderer options, `{}` when the session has none. */
  function EjsOptions(s: Session): Object {
    s.options.ejs.GetOr(map[])
  }

  /** Overload resolution shared by `copy`, `execute` and `executeScript`: a
      function in the options position is the callback and the options become
      `{}`; falsy options become `{}`; a missing callback becomes a no-op. */
  function ResolveArgs(options: OptionsArg, callback: Option<Handler>): (a: Args)
    ensures options.FunctionArg? ==> a == Args(EmptyOptions, UserFunction(options.fn))
    ensures options.ObjectArg? ==> a.options == options.options
    ensures options.FalsyArg? ==> a.options == EmptyOptions
    ensures !options.FunctionArg? && callback.Some? ==> a.callback == callback.value
    ensures !options.FunctionArg? && callback.None? ==> a.callback == NoOp
  {
    match options
    case FunctionArg(f) => Args(EmptyOptions, UserFunction(f))
    case ObjectArg(o) => Args(o, callback.GetOr(NoOp))
    case FalsyArg => Args(EmptyOptions, callback.GetOr(NoOp))
  }

  /** A client acquired for one operation. */
  datatype Acquired = Acquired(session: Session, client: ClientId, events: seq<Event>)

  /** Acquisition (first half of `_withSshClient`). A keepAlive session
      creates and connects a client only when none is cached and otherwise
      reuses the cached one; any other session creates and connects a fresh
      client every time. The connect is fired and not awaited. */
  function Acquire(s: Session): (a: Acquired)
    ensures SameConfig(a.session, s)
    ensures s.keepAlive ==> a.session.keepAliveClient == Some(a.client)
    ensures !s.keepAlive ==> a.session.keepAliveClient == s.keepAliveClient
    ensures s.keepAlive && s.keepAliveClient.Some? ==>
              a.events == [] && a.session == s && a.client == s.keepAliveClient.value
    ensures !(s.keepAlive && s.keepAliveClient.Some?) ==>
              a.client == s.nextId && a.session.nextId == s.nextId + 1
              && a.events == [NewClient(a.client), Connect(a.client, SshConnInfo(s))]
  {
    if s.keepAlive && s.keepAliveClient.Some? then
      Acquired(s, s.keepAliveClient.value, [])
    else
      var id := s.nextId;
      var cache := if s.keepAlive then Some(id) else s.keepAliveClient;
      Acquired(s.(keepAliveClient := cache, nextId := id + 1), id,
               [NewClient(id), Connect(id, SshConnInfo(s))])
  }

  /** Release (the `done` function): closes an ephemeral client; does nothing
      for the cached client of a keepAlive session. */
  function Release(s: Session, client: ClientId): (t: seq<Event>)
    ensures s.keepAlive <==> t == []
    ensures !s.keepAlive ==> t == [Close(client)]
  {
    if s.keepAlive then [] else [Close(client)]
  }

  /** `_withSshClient` with a body that issues one request and, on its
      completion, releases the client and then reports `reply` to `cb`. */
  function WithClient(s: Session, req: Request, reply: Reply, cb: Handler): (r: Step)
    ensures r.session == Acquire(s).session
    ensures !s.keepAlive ==>
              && r.session.nextId == s.nextId + 1
              && r.session.keepAliveClient == s.keepAliveClient
              && r.trace == [NewClient(s.nextId), Connect(s.nextId, SshConnInfo(s)),
                             Issue(s.nextId, req), Close(s.nextId), Callback(cb, reply)]
    ensures s.keepAlive && s.keepAliveClient.Some? ==>
              && r.session == s
              && r.trace == [Issue(s.keepAliveClient.value, req), Callback(cb, reply)]
    ensures s.keepAlive && s.keepAliveClient.None? ==>
              && r.session.keepAliveClient == Some(s.nextId)
              && r.session.nextId == s.nextId + 1
              && r.trace == [NewClient(s.nextId), Connect(s.nextId, SshConnInfo(s)),
                             Issue(s.nextId, req), Callback(cb, reply)]
  {
    var a := Acquire(s);
    Step(a.session, a.events + [Issue(a.client, req)] + Release(s, a.client) + [Callback(cb, reply)])
  }

  /** How many events of each kind one `_withSshClient` round issues, and
      which client it creates. */
  lemma WithClientCounts(s: Session, req: Request, reply: Reply, cb: Handler, k: Kind)
    ensures var t := WithClient(s, req, reply, cb).trace;
      var created := if s.keepAlive && s.keepAliveClient.Some? then 0 else 1;
      && Count(t, k) == (if k == NewClientKind || k == ConnectKind then created
                         else if k == CloseKind then (if s.keepAlive then 0 else 1)
                         else if k == RequestKind(req) || k == CallbackKind then 1
                         else 0)
      && CreatedClients(t) == (if created == 1 then [s.nextId] else [])
      && OnlyClient(t, Some(Acquire(s).client))
  {
    var t := WithClient(s, req, reply, cb).trace;
    var n, done := s.nextId, Callback(cb, reply);
    if !s.keepAlive {
      assert t == [NewClient(n), Connect(n, SshConnInfo(s)), Issue(n, req), Close(n), done];
      EphemeralRound(n, SshConnInfo(s), req, done, k);
    } else if s.keepAliveClient.None? {
      assert t == [NewClient(n), Connect(n, SshConnInfo(s)), Issue(n, req), done];
      FirstKeptRound(n, SshConnInfo(s), req, done, k);
    } else {
      assert t == [Issue(s.keepAliveClient.value, req), done];
      ReusedRound(s.keepAliveClient.value, req, done, k);
    }
  }

  /** What `_applyTemplate` hands to its continuation. `RenderThrew` is a
      renderer failure: `ejs.render` runs unguarded inside the read callback,
      so its exception escapes instead of reaching the continuation. */
  datatype TemplateOutcome = Content(text: string) | ReadFailed(error: Error) | RenderThrew(error: Error)

  datatype TemplateRun = TemplateRun(events: seq<Event>, outcome: TemplateOutcome)

  /** `_applyTemplate`: read the file; render it only when `vars` is present
      (an empty object is present); otherwise hand on the raw text. */
  function ApplyTemplate(ejs: Object, file: string, vars: Option<Object>, io: Collaborators): (r: TemplateRun)
    ensures |r.events| >= 1 && r.events[0] == ReadFile(file)
    ensures forall i :: 0 <= i < |r.events| ==> r.events[i].ReadFile? || r.events[i].Render?
    ensures r.outcome.ReadFailed? <==> io.readFile(file).Failure?
    ensures Count(r.events, RenderKind) == if io.readFile(file).Success? && vars.Some? then 1 else 0
    ensures vars.None? || io.readFile(file).Failure? ==> r.events == [ReadFile(file)]
    ensures io.readFile(file).Success? && vars.Some? ==>
              r.events == [ReadFile(file), Render(io.readFile(file).value, vars.value, ejs)]
              && (r.outcome.Content? <==> io.render(io.readFile(file).value, vars.value, ejs).Success?)
    ensures r.outcome.Content? && vars.None? ==> r.outcome.text == io.readFile(file).value
    ensures r.outcome.Content? && vars.Some? ==>
              io.render(io.readFile(file).value, vars.value, ejs) == Success(r.outcome.text)
    ensures !r.outcome.RenderThrew? || vars.Some?
    ensures r.outcome.ReadFailed? ==> r.outcome.error == io.readFile(file).error
    ensures r.outcome.RenderThrew? ==>
              io.render(io.readFile(file).value, vars.value, ejs) == Failure(r.outcome.error)
  {
    match io.readFile(file)
    case Failure(e) => TemplateRun([ReadFile(file)], ReadFailed(e))
    case Success(content) =>
      if vars.None? then TemplateRun([ReadFile(file)], Content(content))
      else
        var rendered := io.render(content, vars.value, ejs);
        var events := [ReadFile(file), Render(content, vars.value, ejs)];
        assert events == [ReadFile(file)] + [Render(content, vars.value, ejs)];
        CountAppend([ReadFile(file)], [Render(content, vars.value, ejs)], RenderKind);
        CountSingle(Render(content, vars.value, ejs), RenderKind);
        CountSingle(ReadFile(file), RenderKind);
        match rendered
        case Failure(e) => TemplateRun(events, RenderThrew(e))
        case Success(text) => TemplateRun(events, Content(text))
  }

  /** The report of a copy: `(err)` on a transfer error, else `(null, 0, {})`. */
  function CopyReply(transfer: Option<Error>): Reply {
    match transfer
    case Some(e) => Failed(e)
    case None => Succeeded(Num(0), map[])
  }

  /** The report of an execution: `(err)`, else `(null, context.code, context)`. */
  function ExecReply(result: Result<Object, Error>): Reply {
    match result
    case Failure(e) => Failed(e)
    case Success(context) => Succeeded(Get(context, "code"), context)
  }

  /** `copy(src, dest, options, callback)`; `transfer` is the completion the
      client reports for the put. */
  function Copy(s: Session, src: string, dest: string, options: OptionsArg, callback: Option<Handler>,
                io: Collaborators, transfer: Option<Error>): (r: Step)
    ensures r.session == s || r.session == Acquire(s).session
  {
    var args := ResolveArgs(options, callback);
    if args.options.vars.Some? then
      var t := ApplyTemplate(EjsOptions(s), src, args.options.vars, io);
      match t.outcome
      case ReadFailed(e) => Step(s, t.events + [Callback(args.callback, Failed(e))])
      case RenderThrew(e) => Step(s, t.events + [Thrown(e)])
      case Content(text) =>
        var w := WithClient(s, PutContent(text, dest), CopyReply(transfer), args.callback);
        Step(w.session, t.events + w.trace)
    else
      WithClient(s, PutFile(src, dest), CopyReply(transfer), args.callback)
  }

  /** `execute(command, options, callback)`; `result` is the completion the
      client reports: an error or the execution context. */
  function Execute(s: Session, command: string, options: OptionsArg, callback: Option<Handler>,
                   result: Result<Object, Error>): (r: Step)
    ensures r.session == s || r.session == Acquire(s).session
  {
    var args := ResolveArgs(options, callback);
    WithClient(s, Exec(command, args.options), ExecReply(result), args.callback)
  }

  /** The options `executeScript` hands on: `vars` defaults to `{}`. */
  function WithDefaultVars(o: OpOptions): (o': OpOptions)
    ensures o'.vars.Some? && o'.rest == o.rest
    ensures o.vars.Some? ==> o' == o
    ensures o.vars.None? ==> o'.vars == Some(map[])
  {
    o.(vars := Some(o.vars.GetOr(map[])))
  }

  /** `executeScript(file, options, callback)`: render the script and run the
      result through `execute` with the same options and callback. */
  function ExecuteScript(s: Session, file: string, options: OptionsArg, callback: Option<Handler>,
                         io: Collaborators, result: Result<Object, Error>): (r: Step)
    ensures r.session == s || r.session == Acquire(s).session
  {
    var args := ResolveArgs(options, callback);
    var opts := WithDefaultVars(args.options);
    var t := ApplyTemplate(EjsOptions(s), file, opts.vars, io);
    match t.outcome
    case ReadFailed(e) => Step(s, t.events + [Callback(args.callback, Failed(e))])
    case RenderThrew(e) => Step(s, t.events + [Thrown(e)])
    case Content(text) =>
      var x := Execute(s, text, ObjectArg(opts), Some(args.callback), result);
      Step(x.session, t.events + x.trace)
  }

  /** How `executeScript` ends, stated once so that proofs about it need not
      unfold it: when the script renders, it is the template's events
      followed by one client round that runs the text. */
  lemma ExecuteScriptSteps(s: Session, file: string, options: OptionsArg, callback: Option<Handler>,
                           io: Collaborators, result: Result<Object, Error>)
    ensures var args := ResolveArgs(options, callback);
      var opts := WithDefaultVars(args.options);
      var tr := ApplyTemplate(EjsOptions(s), file, opts.vars, io);
      var r := ExecuteScript(s, file, options, callback, io, result);
      && (tr.outcome.ReadFailed? ==> r == Step(s, tr.events + [Callback(args.callback, Failed(tr.outcome.error))]))
      && (tr.outcome.RenderThrew? ==> r == Step(s, tr.events + [Thrown(tr.outcome.error)]))
      && (tr.outcome.Content? ==>
            var w := WithClient(s, Exec(tr.outcome.text, opts), ExecReply(result), args.callback);
            r == Step(w.session, tr.events + w.trace))
  {
  }

  /** `close()`: closes the cached client when there is one. The cache is
      not cleared, so the session comes back unchanged. */
  function CloseSession(s: Session): (r: Step)
    ensures r.session == s
    ensures s.keepAliveClient.Some? ==> r.trace == [Close(s.keepAliveClient.value)]
    ensures s.keepAliveClient.None? ==> r.trace == []
  {
    match s.keepAliveClient
    case Some(c) => Step(s, [Close(c)])
    case None => Step(s, [])
  }
}
