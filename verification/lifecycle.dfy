/** Sequences of operations on one session, and the connection lifecycle
    they produce: how many clients are created, connected and closed, and
    which client each request goes to. */
module Lifecycle {
  import opened Wrappers
  import opened Values
  import opened Trace
  import opened Sessions
  import ConnectionInfo

  /** One call on a session, with the completion its collaborator reports. */
  datatype Op =
    | CopyOp(src: string, dest: string, options: OptionsArg, callback: Option<Handler>, transfer: Option<Error>)
    | ExecuteOp(command: string, options: OptionsArg, callback: Option<Handler>, result: Result<Object, Error>)
    | ExecuteScriptOp(file: string, options: OptionsArg, callback: Option<Handler>, result: Result<Object, Error>)
    | CloseOp

  function Apply(s: Session, op: Op, io: Collaborators): (r: Step)
    ensures r.session == s || r.session == Acquire(s).session
  {
    match op
    case CopyOp(src, dest, o, cb, transfer) => Copy(s, src, dest, o, cb, io, transfer)
    case ExecuteOp(command, o, cb, result) => Execute(s, command, o, cb, result)
    case ExecuteScriptOp(file, o, cb, result) => ExecuteScript(s, file, o, cb, io, result)
    case CloseOp => CloseSession(s)
  }

  /** The operations run one after another; the traces are concatenated. */
  function Run(s: Session, ops: seq<Op>, io: Collaborators): (r: Step)
    ensures SameConfig(r.session, s)
    ensures r.session.nextId >= s.nextId
    ensures s.keepAliveClient.Some? ==> r.session.keepAliveClient == s.keepAliveClient
    ensures !s.keepAlive ==> r.session.keepAliveClient == s.keepAliveClient
    decreases |ops|
  {
    if ops == [] then Step(s, [])
    else
      var first := Apply(s, ops[0], io);
      var rest := Run(first.session, ops[1..], io);
      Step(rest.session, first.trace + rest.trace)
  }

  /** Reading `file` succeeds and, when `vars` is present, so does rendering it. */
  predicate TemplateSucceeds(ejs: Object, file: string, vars: Option<Object>, io: Collaborators) {
    && io.readFile(file).Success?
    && (vars.Some? ==> io.render(io.readFile(file).value, vars.value, ejs).Success?)
  }

  /** The operation gets as far as acquiring a client: an execution always
      does; a copy does unless its template fails; a script does when it is
      read and rendered; `close()` never does. */
  predicate Reaches(ejs: Object, op: Op, io: Collaborators) {
    match op
    case CopyOp(src, _, o, cb, _) =>
      var vars := ResolveArgs(o, cb).options.vars;
      vars.None? || TemplateSucceeds(ejs, src, vars, io)
    case ExecuteOp(_, _, _, _) => true
    case ExecuteScriptOp(file, o, cb, _) =>
      TemplateSucceeds(ejs, file, Some(ResolveArgs(o, cb).options.vars.GetOr(map[])), io)
    case CloseOp => false
  }

  /** How many of `ops` acquire a client. */
  function Reaching(ejs: Object, ops: seq<Op>, io: Collaborators): nat {
    if ops == [] then 0
    else (if Reaches(ejs, ops[0], io) then 1 else 0) + Reaching(ejs, ops[1..], io)
  }

  /** `ops` holds no `close()` call. */
  predicate NoCloseOps(ops: seq<Op>) {
    forall i :: 0 <= i < |ops| ==> !ops[i].CloseOp?
  }

  /** The client events one non-close operation leaves: `reach` says whether
      it acquired a client. */
  predicate Effect(s: Session, r: Step, reach: bool) {
    var created := reach && !(s.keepAlive && s.keepAliveClient.Some?);
    && r.session == (if reach then Acquire(s).session else s)
    && Count(r.trace, NewClientKind) == (if created then 1 else 0)
    && Count(r.trace, ConnectKind) == (if created then 1 else 0)
    && Count(r.trace, CloseKind) == (if reach && !s.keepAlive then 1 else 0)
    && CreatedClients(r.trace) == (if created then [s.nextId] else [])
    && OnlyClient(r.trace, if reach then Some(Acquire(s).client) else None)
  }

  lemma NoRoundEffect(s: Session, t: seq<Event>)
    requires NoClient(t)
    ensures Effect(s, Step(s, t), false)
  {
    NoClientEvents(t);
  }

  lemma RoundEffect(p: seq<Event>, s: Session, req: Request, reply: Reply, cb: Handler)
    requires NoClient(p)
    ensures var w := WithClient(s, req, reply, cb);
      Effect(s, Step(w.session, p + w.trace), true)
  {
    var w := WithClient(s, req, reply, cb);
    var c := Acquire(s).client;
    NoClientEvents(p);
    WithClientCounts(s, req, reply, cb, NewClientKind);
    WithClientCounts(s, req, reply, cb, ConnectKind);
    WithClientCounts(s, req, reply, cb, CloseKind);
    CountAppend(p, w.trace, NewClientKind);
    CountAppend(p, w.trace, ConnectKind);
    CountAppend(p, w.trace, CloseKind);
    CreatedClientsAppend(p, w.trace);
    OnlyClientAppend(p, w.trace, Some(c));
  }

  lemma CopyEffect(s: Session, src: string, dest: string, o: OptionsArg, cb: Option<Handler>,
                   io: Collaborators, transfer: Option<Error>)
    ensures Effect(s, Copy(s, src, dest, o, cb, io, transfer), Reaches(EjsOptions(s), CopyOp(src, dest, o, cb, transfer), io))
  {
    var args := ResolveArgs(o, cb);
    var r := Copy(s, src, dest, o, cb, io, transfer);
    if args.options.vars.None? {
      RoundEffect([], s, PutFile(src, dest), CopyReply(transfer), args.callback);
      assert [] + r.trace == r.trace;
    } else {
      var tr := ApplyTemplate(EjsOptions(s), src, args.options.vars, io);
      match tr.outcome
      case ReadFailed(e) => NoRoundEffect(s, r.trace);
      case RenderThrew(e) => NoRoundEffect(s, r.trace);
      case Content(text) =>
        RoundEffect(tr.events, s, PutContent(text, dest), CopyReply(transfer), args.callback);
    }
  }

  lemma ExecuteEffect(s: Session, command: string, o: OptionsArg, cb: Option<Handler>, result: Result<Object, Error>)
    ensures Effect(s, Execute(s, command, o, cb, result), true)
  {
    var args := ResolveArgs(o, cb);
    var r := Execute(s, command, o, cb, result);
    RoundEffect([], s, Exec(command, args.options), ExecReply(result), args.callback);
    assert [] + r.trace == r.trace;
  }

  lemma ExecuteScriptEffect(s: Session, file: string, o: OptionsArg, cb: Option<Handler>,
                            io: Collaborators, result: Result<Object, Error>)
    ensures Effect(s, ExecuteScript(s, file, o, cb, io, result),
                   Reaches(EjsOptions(s), ExecuteScriptOp(file, o, cb, result), io))
  {
    var args := ResolveArgs(o, cb);
    var opts := WithDefaultVars(args.options);
    var tr := ApplyTemplate(EjsOptions(s), file, opts.vars, io);
    var r := ExecuteScript(s, file, o, cb, io, result);
    ExecuteScriptSteps(s, file, o, cb, io, result);
    match tr.outcome
    case ReadFailed(e) => NoRoundEffect(s, r.trace);
    case RenderThrew(e) => NoRoundEffect(s, r.trace);
    case Content(text) =>
      RoundEffect(tr.events, s, Exec(text, opts), ExecReply(result), args.callback);
  }

  /** What one operation does to the client lifecycle. `close()` closes the
      cached client, if any, and changes nothing; every other operation
      creates, connects and (without keepAlive) closes one client exactly
      when it reaches the client, and touches no other client. */
  lemma ApplyEffect(s: Session, op: Op, io: Collaborators)
    ensures var r := Apply(s, op, io);
      !op.CloseOp? ==> Effect(s, r, Reaches(EjsOptions(s), op, io))
    ensures var r := Apply(s, op, io);
      op.CloseOp? ==>
        && r.session == s
        && Count(r.trace, NewClientKind) == 0 && Count(r.trace, ConnectKind) == 0
        && Count(r.trace, CloseKind) == (if s.keepAliveClient.Some? then 1 else 0)
        && CreatedClients(r.trace) == []
        && OnlyClient(r.trace, s.keepAliveClient)
  {
    match op
    case CopyOp(src, dest, o, cb, transfer) => CopyEffect(s, src, dest, o, cb, io, transfer);
    case ExecuteOp(command, o, cb, result) => ExecuteEffect(s, command, o, cb, result);
    case ExecuteScriptOp(file, o, cb, result) => ExecuteScriptEffect(s, file, o, cb, io, result);
    case CloseOp =>
      var r := CloseSession(s);
      if s.keepAliveClient.Some? {
        CountSingle(Close(s.keepAliveClient.value), NewClientKind);
        CountSingle(Close(s.keepAliveClient.value), ConnectKind);
        CountSingle(Close(s.keepAliveClient.value), CloseKind);
        CreatedClientsCons(Close(s.keepAliveClient.value), []);
        assert [Close(s.keepAliveClient.value)] == [Close(s.keepAliveClient.value)] + [];
      }
  }

  /** `ids` is `start, start + 1, …`. */
  predicate Consecutive(ids: seq<ClientId>, start: nat) {
    forall i :: 0 <= i < |ids| ==> ids[i] == start + i
  }

  lemma ConsecutiveAppend(a: seq<ClientId>, b: seq<ClientId>, start: nat)
    requires Consecutive(a, start) && Consecutive(b, start + |a|)
    ensures Consecutive(a + b, start)
  {
    forall i | 0 <= i < |a + b| ensures (a + b)[i] == start + i {
      if i >= |a| {
        assert (a + b)[i] == b[i - |a|];
      }
    }
  }

  /** One operation on a session without keepAlive: a client is created,
      connected and closed exactly when the operation reaches one, and it
      takes the next identity. */
  lemma EphemeralStep(s: Session, op: Op, io: Collaborators)
    requires !s.keepAlive && s.keepAliveClient.None?
    ensures var r := Apply(s, op, io);
      var n := if Reaches(EjsOptions(s), op, io) then 1 else 0;
      && Count(r.trace, NewClientKind) == n
      && Count(r.trace, ConnectKind) == n
      && Count(r.trace, CloseKind) == n
      && r.session.nextId == s.nextId + n
      && CreatedClients(r.trace) == (if n == 1 then [s.nextId] else [])
      && SameConfig(r.session, s) && r.session.keepAliveClient.None?
  {
    ApplyEffect(s, op, io);
  }

  /** Without keepAlive, N operations that reach a client create N clients,
      connect N times and close N times; the clients get consecutive, hence
      distinct, identities: none is ever reused. */
  lemma {:induction false} EphemeralLifecycle(s: Session, ops: seq<Op>, io: Collaborators)
    requires !s.keepAlive && s.keepAliveClient.None?
    decreases |ops|
    ensures var r := Run(s, ops, io);
      var n := Reaching(EjsOptions(s), ops, io);
      && Count(r.trace, NewClientKind) == n
      && Count(r.trace, ConnectKind) == n
      && Count(r.trace, CloseKind) == n
      && r.session.nextId == s.nextId + n
      && |CreatedClients(r.trace)| == n
      && Consecutive(CreatedClients(r.trace), s.nextId)
  {
    if ops != [] {
      var first := Apply(s, ops[0], io);
      var rest := Run(first.session, ops[1..], io);
      assert Run(s, ops, io) == Step(rest.session, first.trace + rest.trace);
      EphemeralStep(s, ops[0], io);
      assert EjsOptions(first.session) == EjsOptions(s);
      EphemeralLifecycle(first.session, ops[1..], io);
      CountAppend(first.trace, rest.trace, NewClientKind);
      CountAppend(first.trace, rest.trace, ConnectKind);
      CountAppend(first.trace, rest.trace, CloseKind);
      CreatedClientsAppend(first.trace, rest.trace);
      ConsecutiveAppend(CreatedClients(first.trace), CreatedClients(rest.trace), s.nextId);
    }
  }

  /** Every operation reaching a client makes the count the number of operations. */
  lemma {:induction false} AllReach(ejs: Object, ops: seq<Op>, io: Collaborators)
    requires forall i :: 0 <= i < |ops| ==> Reaches(ejs, ops[i], io)
    ensures Reaching(ejs, ops, io) == |ops|
  {
    if ops != [] {
      AllReach(ejs, ops[1..], io);
    }
  }

  /** Without keepAlive, N operations that all reach a client (executions or
      plain copies, say; `AllReach` turns "each reaches" into the count) give
      N connects and N closes, and no two of them share a client. */
  lemma {:induction false} EphemeralNOps(s: Session, ops: seq<Op>, io: Collaborators)
    requires !s.keepAlive && s.keepAliveClient.None?
    requires Reaching(EjsOptions(s), ops, io) == |ops|
    ensures var t := Run(s, ops, io).trace;
      && Count(t, ConnectKind) == |ops| && Count(t, CloseKind) == |ops|
      && forall i, j :: 0 <= i < j < |CreatedClients(t)| ==> CreatedClients(t)[i] != CreatedClients(t)[j]
  {
    EphemeralLifecycle(s, ops, io);
  }

  /** With keepAlive, a client is created and connected only when none is
      cached and some operation reaches one; every client event goes to the
      one cached client; and without `close()` calls nothing is ever closed. */
  lemma {:induction false} KeepAliveLifecycle(s: Session, ops: seq<Op>, io: Collaborators)
    requires s.keepAlive
    decreases |ops|
    ensures var r := Run(s, ops, io);
      var n := if s.keepAliveClient.None? && Reaching(EjsOptions(s), ops, io) > 0 then 1 else 0;
      && Count(r.trace, NewClientKind) == n
      && Count(r.trace, ConnectKind) == n
      && (NoCloseOps(ops) ==> Count(r.trace, CloseKind) == 0)
      && OnlyClient(r.trace, r.session.keepAliveClient)
      && (n == 1 ==> r.session.keepAliveClient == Some(s.nextId))
      && (n == 0 ==> r.session.keepAliveClient == s.keepAliveClient)
  {
    if ops != [] {
      var first := Apply(s, ops[0], io);
      var rest := Run(first.session, ops[1..], io);
      var r := Run(s, ops, io);
      ApplyEffect(s, ops[0], io);
      KeepAliveLifecycle(first.session, ops[1..], io);
      CountAppend(first.trace, rest.trace, NewClientKind);
      CountAppend(first.trace, rest.trace, ConnectKind);
      CountAppend(first.trace, rest.trace, CloseKind);
      if NoCloseOps(ops) {
        assert !ops[0].CloseOp?;
        assert NoCloseOps(ops[1..]) by {
          forall i | 0 <= i < |ops[1..]| ensures !ops[1..][i].CloseOp? {
            assert ops[1..][i] == ops[i + 1];
          }
        }
      }
      assert OnlyClient(first.trace, r.session.keepAliveClient);
      OnlyClientAppend(first.trace, rest.trace, r.session.keepAliveClient);
    }
  }

  /** `close()` on a keepAlive session closes the cached client but keeps it
      cached: later operations go to the closed client and nothing is
      created or connected again. */
  lemma CloseThenReuse(s: Session, ops: seq<Op>, io: Collaborators)
    requires s.keepAlive && s.keepAliveClient.Some?
    ensures var r := Run(s, [CloseOp] + ops, io);
      && r.trace != [] && r.trace[0] == Close(s.keepAliveClient.value)
      && Count(r.trace, NewClientKind) == 0 && Count(r.trace, ConnectKind) == 0
      && OnlyClient(r.trace, s.keepAliveClient)
      && r.session.keepAliveClient == s.keepAliveClient
  {
    assert ([CloseOp] + ops)[0] == CloseOp && ([CloseOp] + ops)[1..] == ops;
    KeepAliveLifecycle(s, [CloseOp] + ops, io);
  }

  /** The shape of the end of a trace whose last part is an ephemeral round. */
  predicate EndsWithEphemeralRound(t: seq<Event>, n: ClientId, info: Object) {
    && |t| >= 5
    && t[|t| - 5] == NewClient(n) && t[|t| - 4] == Connect(n, info)
    && t[|t| - 3].Issue? && t[|t| - 3].client == n
    && t[|t| - 2] == Close(n) && t[|t| - 1].Callback?
  }

  lemma RoundEnds(p: seq<Event>, s: Session, req: Request, reply: Reply, cb: Handler)
    requires !s.keepAlive
    ensures EndsWithEphemeralRound(p + WithClient(s, req, reply, cb).trace, s.nextId, SshConnInfo(s))
  {
  }

  /** Without keepAlive, an operation that reaches a client ends with the
      client's close followed by the report: the release comes before the
      callback whatever the collaborator reported. */
  lemma EphemeralReleaseBeforeReport(s: Session, op: Op, io: Collaborators)
    requires !s.keepAlive && !op.CloseOp? && Reaches(EjsOptions(s), op, io)
    ensures EndsWithEphemeralRound(Apply(s, op, io).trace, s.nextId, SshConnInfo(s))
  {
    match op {
      case CopyOp(src, dest, o, cb, transfer) =>
        var args := ResolveArgs(o, cb);
        if args.options.vars.None? {
          RoundEnds([], s, PutFile(src, dest), CopyReply(transfer), args.callback);
          assert [] + Apply(s, op, io).trace == Apply(s, op, io).trace;
        } else {
          var tr := ApplyTemplate(EjsOptions(s), src, args.options.vars, io);
          RoundEnds(tr.events, s, PutContent(tr.outcome.text, dest), CopyReply(transfer), args.callback);
        }
      case ExecuteOp(command, o, cb, result) =>
        var args := ResolveArgs(o, cb);
        RoundEnds([], s, Exec(command, args.options), ExecReply(result), args.callback);
        assert [] + Apply(s, op, io).trace == Apply(s, op, io).trace;
      case ExecuteScriptOp(file, o, cb, result) =>
        var args := ResolveArgs(o, cb);
        var opts := WithDefaultVars(args.options);
        var tr := ApplyTemplate(EjsOptions(s), file, opts.vars, io);
        RoundEnds(tr.events, s, Exec(tr.outcome.text, opts), ExecReply(result), args.callback);
    }
  }

  /** From construction: a session whose `keepAlive` option is truthy
      connects at most once and, without `close()` calls, never closes; any
      other session connects and closes once per operation that reaches a
      client. */
  lemma NewSessionLifecycle(host: string, auth: ConnectionInfo.Auth, options: Option<SessionOptions>,
                            ops: seq<Op>, io: Collaborators)
    ensures var s := New(host, auth, options);
      var t := Run(s, ops, io).trace;
      var n := Reaching(EjsOptions(s), ops, io);
      && (s.keepAlive ==> Count(t, ConnectKind) == (if n > 0 then 1 else 0))
      && (s.keepAlive && NoCloseOps(ops) ==> Count(t, CloseKind) == 0)
      && (!s.keepAlive ==> Count(t, ConnectKind) == n && Count(t, CloseKind) == n)
  {
    var s := New(host, auth, options);
    if s.keepAlive {
      KeepAliveLifecycle(s, ops, io);
    } else {
      EphemeralLifecycle(s, ops, io);
    }
  }
}
