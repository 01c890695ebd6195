/** Which collaborator calls each operation makes, and what it reports. */
module Dispatch {
  import opened Wrappers
  import opened Values
  import opened Trace
  import opened Sessions

  /** `req` is handed to some client in `t`. */
  predicate Issued(t: seq<Event>, req: Request) {
    exists i :: 0 <= i < |t| && t[i].Issue? && t[i].request == req
  }

  function Last(t: seq<Event>): Event
    requires t != []
  {
    t[|t| - 1]
  }

  /** The report of a copy: `(null, 0, {})` after a clean transfer, `(err)` after a failed one. */
  predicate ReportsCopy(e: Event, h: Handler, transfer: Option<Error>) {
    && (transfer.None? ==> e == Callback(h, Succeeded(Num(0), map[])))
    && (transfer.Some? ==> e == Callback(h, Failed(transfer.value)))
  }

  /** The report of an execution: `(null, context.code, context)` or `(err)`. */
  predicate ReportsExecution(e: Event, h: Handler, result: Result<Object, Error>) {
    && (result.Success? ==> e == Callback(h, Succeeded(Get(result.value, "code"), result.value)))
    && (result.Failure? ==> e == Callback(h, Failed(result.error)))
  }

  /** A client round issues `req` and ends with its report. */
  lemma WithClientIssues(s: Session, req: Request, reply: Reply, cb: Handler)
    ensures var t := WithClient(s, req, reply, cb).trace;
      Issued(t, req) && t != [] && Last(t) == Callback(cb, reply)
  {
    var t := WithClient(s, req, reply, cb).trace;
    if s.keepAlive && s.keepAliveClient.Some? {
      assert t[0].Issue? && t[0].request == req;
    } else {
      assert t[2].Issue? && t[2].request == req;
    }
  }

  /** A client round issues one request of its own kind, none of the other
      kinds, and reads and renders nothing. */
  lemma WithClientKinds(s: Session, req: Request, reply: Reply, cb: Handler)
    ensures var t := WithClient(s, req, reply, cb).trace;
      && Count(t, ReadKind) == 0 && Count(t, RenderKind) == 0
      && Count(t, PutFileKind) == (if req.PutFile? then 1 else 0)
      && Count(t, PutContentKind) == (if req.PutContent? then 1 else 0)
      && Count(t, ExecKind) == (if req.Exec? then 1 else 0)
  {
    WithClientCounts(s, req, reply, cb, ReadKind);
    WithClientCounts(s, req, reply, cb, RenderKind);
    WithClientCounts(s, req, reply, cb, PutFileKind);
    WithClientCounts(s, req, reply, cb, PutContentKind);
    WithClientCounts(s, req, reply, cb, ExecKind);
  }

  /** Prefixing events that issue nothing keeps a request issued. */
  lemma IssuedAfterPrefix(p: seq<Event>, t: seq<Event>, req: Request)
    requires Issued(t, req)
    ensures Issued(p + t, req)
  {
    var i :| 0 <= i < |t| && t[i].Issue? && t[i].request == req;
    assert (p + t)[|p| + i] == t[i];
  }

  /** A client round after events that touch no client still issues its
      request once, no other kind of request, and reports last. */
  lemma PrefixedRound(p: seq<Event>, s: Session, req: Request, reply: Reply, cb: Handler)
    requires NoClient(p)
    ensures var t := p + WithClient(s, req, reply, cb).trace;
      && Issued(t, req) && t != [] && Last(t) == Callback(cb, reply)
      && Count(t, PutFileKind) == (if req.PutFile? then 1 else 0)
      && Count(t, PutContentKind) == (if req.PutContent? then 1 else 0)
      && Count(t, ExecKind) == (if req.Exec? then 1 else 0)
  {
    var w := WithClient(s, req, reply, cb).trace;
    WithClientIssues(s, req, reply, cb);
    WithClientKinds(s, req, reply, cb);
    IssuedAfterPrefix(p, w, req);
    NoClientEvents(p);
    CountAppend(p, w, PutFileKind);
    CountAppend(p, w, PutContentKind);
    CountAppend(p, w, ExecKind);
  }

  /** Without `vars`, a copy transfers the file as it is: one `putFile(src, dest)`,
      no `putContent`, no read and no render; the report comes last. */
  lemma CopyPlainFile(s: Session, src: string, dest: string, options: OptionsArg, callback: Option<Handler>,
                      io: Collaborators, transfer: Option<Error>)
    requires ResolveArgs(options, callback).options.vars.None?
    ensures var t := Copy(s, src, dest, options, callback, io, transfer).trace;
      && Issued(t, PutFile(src, dest))
      && Count(t, PutFileKind) == 1 && Count(t, PutContentKind) == 0
      && Count(t, ReadKind) == 0 && Count(t, RenderKind) == 0
      && t != [] && ReportsCopy(Last(t), ResolveArgs(options, callback).callback, transfer)
  {
    var h := ResolveArgs(options, callback).callback;
    CopyPlainSteps(s, src, dest, options, callback, io, transfer);
    WithClientIssues(s, PutFile(src, dest), CopyReply(transfer), h);
    WithClientKinds(s, PutFile(src, dest), CopyReply(transfer), h);
  }

  /** Without `vars`, a copy is exactly one client round that puts the file. */
  lemma CopyPlainSteps(s: Session, src: string, dest: string, options: OptionsArg, callback: Option<Handler>,
                       io: Collaborators, transfer: Option<Error>)
    requires ResolveArgs(options, callback).options.vars.None?
    ensures Copy(s, src, dest, options, callback, io, transfer)
            == WithClient(s, PutFile(src, dest), CopyReply(transfer), ResolveArgs(options, callback).callback)
  {
  }

  /** With `vars`, a readable and renderable file makes the copy the read,
      the render, then a client round that puts the rendered text. */
  lemma CopyRenderedSteps(s: Session, src: string, dest: string, options: OptionsArg, callback: Option<Handler>,
                          io: Collaborators, transfer: Option<Error>, text: string)
    requires ResolveArgs(options, callback).options.vars.Some?
    requires io.readFile(src).Success?
    requires io.render(io.readFile(src).value, ResolveArgs(options, callback).options.vars.value, EjsOptions(s))
             == Success(text)
    ensures var args := ResolveArgs(options, callback);
      Copy(s, src, dest, options, callback, io, transfer).trace
      == [ReadFile(src), Render(io.readFile(src).value, args.options.vars.value, EjsOptions(s))]
         + WithClient(s, PutContent(text, dest), CopyReply(transfer), args.callback).trace
  {
  }

  /** With `vars`, and the file read and rendered, a copy transfers the
      rendered text: one `putContent(text, dest)` and no `putFile`. */
  lemma CopyRendered(s: Session, src: string, dest: string, options: OptionsArg, callback: Option<Handler>,
                     io: Collaborators, transfer: Option<Error>, text: string)
    requires ResolveArgs(options, callback).options.vars.Some?
    requires io.readFile(src).Success?
    requires io.render(io.readFile(src).value, ResolveArgs(options, callback).options.vars.value, EjsOptions(s))
             == Success(text)
    ensures var t := Copy(s, src, dest, options, callback, io, transfer).trace;
      && |t| >= 2
      && t[0] == ReadFile(src)
      && t[1] == Render(io.readFile(src).value, ResolveArgs(options, callback).options.vars.value, EjsOptions(s))
      && Issued(t, PutContent(text, dest))
      && Count(t, PutContentKind) == 1 && Count(t, PutFileKind) == 0
      && ReportsCopy(Last(t), ResolveArgs(options, callback).callback, transfer)
  {
    var args := ResolveArgs(options, callback);
    var p := [ReadFile(src), Render(io.readFile(src).value, args.options.vars.value, EjsOptions(s))];
    CopyRenderedSteps(s, src, dest, options, callback, io, transfer, text);
    PrefixedRound(p, s, PutContent(text, dest), CopyReply(transfer), args.callback);
  }

  /** With `vars`, an unreadable file is reported as `(err)` and no client is touched. */
  lemma CopyReadFailure(s: Session, src: string, dest: string, options: OptionsArg, callback: Option<Handler>,
                        io: Collaborators, transfer: Option<Error>)
    requires ResolveArgs(options, callback).options.vars.Some?
    requires io.readFile(src).Failure?
    ensures Copy(s, src, dest, options, callback, io, transfer)
            == Step(s, [ReadFile(src), Callback(ResolveArgs(options, callback).callback, Failed(io.readFile(src).error))])
  {
  }

  /** With `vars`, a renderer failure escapes as an exception: no client is
      touched and the callback is never invoked. */
  lemma CopyRenderThrows(s: Session, src: string, dest: string, options: OptionsArg, callback: Option<Handler>,
                         io: Collaborators, transfer: Option<Error>)
    requires ResolveArgs(options, callback).options.vars.Some?
    requires io.readFile(src).Success?
    requires io.render(io.readFile(src).value, ResolveArgs(options, callback).options.vars.value, EjsOptions(s)).Failure?
    ensures var vars := ResolveArgs(options, callback).options.vars.value;
      var content := io.readFile(src).value;
      Copy(s, src, dest, options, callback, io, transfer)
      == Step(s, [ReadFile(src), Render(content, vars, EjsOptions(s)),
                  Thrown(io.render(content, vars, EjsOptions(s)).error)])
  {
  }

  /** `execute` hands the command and the resolved options to the client
      untouched, issues nothing else, and reports last. */
  lemma ExecuteForwards(s: Session, command: string, options: OptionsArg, callback: Option<Handler>,
                        result: Result<Object, Error>)
    ensures var t := Execute(s, command, options, callback, result).trace;
      && Issued(t, Exec(command, ResolveArgs(options, callback).options))
      && Count(t, ExecKind) == 1 && Count(t, PutFileKind) == 0 && Count(t, PutContentKind) == 0
      && Count(t, ReadKind) == 0 && Count(t, RenderKind) == 0
      && t != [] && ReportsExecution(Last(t), ResolveArgs(options, callback).callback, result)
  {
    var args := ResolveArgs(options, callback);
    WithClientIssues(s, Exec(command, args.options), ExecReply(result), args.callback);
    WithClientKinds(s, Exec(command, args.options), ExecReply(result), args.callback);
  }

  /** `executeScript` always renders the script, with `{}` when no `vars`
      were given, and a readable script yields exactly one render. */
  lemma ExecuteScriptAlwaysRenders(s: Session, file: string, options: OptionsArg, callback: Option<Handler>,
                                   io: Collaborators, result: Result<Object, Error>)
    requires io.readFile(file).Success?
    ensures var t := ExecuteScript(s, file, options, callback, io, result).trace;
      && |t| >= 2
      && t[0] == ReadFile(file)
      && t[1] == Render(io.readFile(file).value,
                        ResolveArgs(options, callback).options.vars.GetOr(map[]), EjsOptions(s))
      && Count(t, RenderKind) == 1
  {
    var args := ResolveArgs(options, callback);
    var opts := WithDefaultVars(args.options);
    var tr := ApplyTemplate(EjsOptions(s), file, opts.vars, io);
    var t := ExecuteScript(s, file, options, callback, io, result).trace;
    ExecuteScriptSteps(s, file, options, callback, io, result);
    var tail: seq<Event> :=
      if tr.outcome.Content? then WithClient(s, Exec(tr.outcome.text, opts), ExecReply(result), args.callback).trace
      else [Thrown(tr.outcome.error)];
    assert t == tr.events + tail;
    CountAppend(tr.events, tail, RenderKind);
    if tr.outcome.Content? {
      WithClientCounts(s, Exec(tr.outcome.text, opts), ExecReply(result), args.callback, RenderKind);
    } else {
      CountSingle(Thrown(tr.outcome.error), RenderKind);
    }
  }

  /** `executeScript` runs the rendered script through `execute`, with the
      options (now carrying `vars`) and the resolved callback. */
  lemma ExecuteScriptForwards(s: Session, file: string, options: OptionsArg, callback: Option<Handler>,
                              io: Collaborators, result: Result<Object, Error>, text: string)
    requires io.readFile(file).Success?
    requires io.render(io.readFile(file).value, ResolveArgs(options, callback).options.vars.GetOr(map[]),
                       EjsOptions(s)) == Success(text)
    ensures var args := ResolveArgs(options, callback);
      var vars := args.options.vars.GetOr(map[]);
      var x := Execute(s, text, ObjectArg(args.options.(vars := Some(vars))), Some(args.callback), result);
      ExecuteScript(s, file, options, callback, io, result)
      == Step(x.session, [ReadFile(file), Render(io.readFile(file).value, vars, EjsOptions(s))] + x.trace)
  {
  }

  /** An unreadable script is reported as `(err)`; no client is touched. */
  lemma ExecuteScriptReadFailure(s: Session, file: string, options: OptionsArg, callback: Option<Handler>,
                                 io: Collaborators, result: Result<Object, Error>)
    requires io.readFile(file).Failure?
    ensures ExecuteScript(s, file, options, callback, io, result)
            == Step(s, [ReadFile(file), Callback(ResolveArgs(options, callback).callback, Failed(io.readFile(file).error))])
  {
  }

  /** `copy` treats a function in the options position as the callback with
      `{}` options, falsy options as `{}`, and a missing callback as a no-op. */
  lemma CopyOverloads(s: Session, src: string, dest: string, f: nat, options: OptionsArg, callback: Option<Handler>,
                      io: Collaborators, transfer: Option<Error>)
    ensures Copy(s, src, dest, FunctionArg(f), callback, io, transfer)
            == Copy(s, src, dest, ObjectArg(EmptyOptions), Some(UserFunction(f)), io, transfer)
    ensures Copy(s, src, dest, FalsyArg, callback, io, transfer)
            == Copy(s, src, dest, ObjectArg(EmptyOptions), callback, io, transfer)
    ensures Copy(s, src, dest, options, None, io, transfer) == Copy(s, src, dest, options, Some(NoOp), io, transfer)
  {
  }

  /** The same overloads hold for `execute`. */
  lemma ExecuteOverloads(s: Session, command: string, f: nat, options: OptionsArg, callback: Option<Handler>,
                         result: Result<Object, Error>)
    ensures Execute(s, command, FunctionArg(f), callback, result)
            == Execute(s, command, ObjectArg(EmptyOptions), Some(UserFunction(f)), result)
    ensures Execute(s, command, FalsyArg, callback, result)
            == Execute(s, command, ObjectArg(EmptyOptions), callback, result)
    ensures Execute(s, command, options, None, result) == Execute(s, command, options, Some(NoOp), result)
  {
  }

  /** The same overloads hold for `executeScript`. */
  lemma ExecuteScriptOverloads(s: Session, file: string, f: nat, options: OptionsArg, callback: Option<Handler>,
                               io: Collaborators, result: Result<Object, Error>)
    ensures ExecuteScript(s, file, FunctionArg(f), callback, io, result)
            == ExecuteScript(s, file, ObjectArg(EmptyOptions), Some(UserFunction(f)), io, result)
    ensures ExecuteScript(s, file, FalsyArg, callback, io, result)
            == ExecuteScript(s, file, ObjectArg(EmptyOptions), callback, io, result)
    ensures ExecuteScript(s, file, options, None, io, result) == ExecuteScript(s, file, options, Some(NoOp), io, result)
  {
  }
}
