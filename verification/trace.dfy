/** The collaborator events a session issues, in the order it issues them. */
module Trace {
  import opened Wrappers
  import opened Values

  /** Identity of one `SSHClient` object. */
  type ClientId = nat

  /** The completion callback an operation finally invokes: one the caller
      supplied, or the do-nothing function put in its place. */
  datatype Handler = UserFunction(id: nat) | NoOp

  /** The arguments a completion callback receives. `Failed(e)` is
      `callback(err)`; `Succeeded(code, info)` is `callback(null, code, info)`. */
  datatype Reply = Failed(error: Error) | Succeeded(code: Value, info: Object)

  /** The options object of one operation: `vars` when it is present and
      truthy, and every other property, passed along untouched, in `rest`.
      `rest` is meant not to hold a `"vars"` key; a falsy `vars` is folded
      into `None`. */
  datatype OpOptions = OpOptions(vars: Option<Object>, rest: Object)

  /** The empty options object `{}`. */
  const EmptyOptions := OpOptions(None, map[])

  /** A request handed to an SSH client. */
  datatype Request =
    | PutFile(src: string, dest: string)
    | PutContent(text: string, dest: string)
    | Exec(command: string, options: OpOptions)

  /** One call into a collaborator, or the final report of an operation. */
  datatype Event =
    | ReadFile(path: string)
    | Render(template: string, vars: Object, ejsOptions: Object)
    | NewClient(client: ClientId)
    | Connect(client: ClientId, info: Object)
    | Issue(client: ClientId, request: Request)
    | Close(client: ClientId)
    | Callback(handler: Handler, reply: Reply)
    | Thrown(error: Error)

  /** Event classes that the lifecycle properties count. */
  datatype Kind =
    | ReadKind | RenderKind | NewClientKind | ConnectKind
    | PutFileKind | PutContentKind | ExecKind
    | CloseKind | CallbackKind | ThrownKind

  function KindOf(e: Event): Kind {
    match e
    case ReadFile(_) => ReadKind
    case Render(_, _, _) => RenderKind
    case NewClient(_) => NewClientKind
    case Connect(_, _) => ConnectKind
    case Issue(_, req) =>
      (match req
       case PutFile(_, _) => PutFileKind
       case PutContent(_, _) => PutContentKind
       case Exec(_, _) => ExecKind)
    case Close(_) => CloseKind
    case Callback(_, _) => CallbackKind
    case Thrown(_) => ThrownKind
  }

  /** Events that act on an SSH client. */
  predicate UsesClient(e: Event) {
    e.NewClient? || e.Connect? || e.Issue? || e.Close?
  }

  /** No event of `t` acts on a client. */
  predicate NoClient(t: seq<Event>) {
    forall i :: 0 <= i < |t| ==> !UsesClient(t[i])
  }

  /** Every client event of `t` acts on the client `c`; with `c == None`,
      `t` has no client event at all. */
  predicate OnlyClient(t: seq<Event>, c: Option<ClientId>) {
    forall i :: 0 <= i < |t| && UsesClient(t[i]) ==> c == Some(t[i].client)
  }

  /** Number of events of kind `k` in `t`. */
  function Count(t: seq<Event>, k: Kind): nat {
    if t == [] then 0
    else (if KindOf(t[0]) == k then 1 else 0) + Count(t[1..], k)
  }

  /** The ids of the clients created in `t`, in creation order. */
  function CreatedClients(t: seq<Event>): seq<ClientId> {
    if t == [] then []
    else (if t[0].NewClient? then [t[0].client] else []) + CreatedClients(t[1..])
  }

  lemma {:induction false} CountAppend(a: seq<Event>, b: seq<Event>, k: Kind)
    ensures Count(a + b, k) == Count(a, k) + Count(b, k)
  {
    if a != [] {
      assert (a + b)[1..] == a[1..] + b;
      CountAppend(a[1..], b, k);
    } else {
      assert a + b == b;
    }
  }

  lemma {:induction false} CreatedClientsAppend(a: seq<Event>, b: seq<Event>)
    ensures CreatedClients(a + b) == CreatedClients(a) + CreatedClients(b)
  {
    if a != [] {
      assert (a + b)[1..] == a[1..] + b;
      CreatedClientsAppend(a[1..], b);
    } else {
      assert a + b == b;
    }
  }

  /** 1 when `e` is of kind `k`, else 0. */
  function Indicator(e: Event, k: Kind): nat {
    if KindOf(e) == k then 1 else 0
  }

  /** The kind of the event that issues `req`. */
  function RequestKind(req: Request): Kind {
    match req
    case PutFile(_, _) => PutFileKind
    case PutContent(_, _) => PutContentKind
    case Exec(_, _) => ExecKind
  }

  lemma CountSingle(e: Event, k: Kind)
    ensures Count([e], k) == Indicator(e, k)
  {
    assert [e][1..] == [];
  }

  lemma CountCons(e: Event, t: seq<Event>, k: Kind)
    ensures Count([e] + t, k) == Indicator(e, k) + Count(t, k)
  {
    assert ([e] + t)[1..] == t;
  }

  lemma CreatedClientsCons(e: Event, t: seq<Event>)
    ensures CreatedClients([e] + t) == (if e.NewClient? then [e.client] else []) + CreatedClients(t)
  {
    assert ([e] + t)[1..] == t;
  }

  lemma OnlyClientAppend(a: seq<Event>, b: seq<Event>, c: Option<ClientId>)
    requires OnlyClient(a, c) && OnlyClient(b, c)
    ensures OnlyClient(a + b, c)
  {
  }

  /** A sequence with no client event creates, connects, uses and closes no client. */
  lemma {:induction false} NoClientEvents(t: seq<Event>)
    requires NoClient(t)
    ensures CreatedClients(t) == []
    ensures Count(t, NewClientKind) == 0 && Count(t, ConnectKind) == 0 && Count(t, CloseKind) == 0
    ensures Count(t, PutFileKind) == 0 && Count(t, PutContentKind) == 0 && Count(t, ExecKind) == 0
  {
    if t != [] {
      NoClientEvents(t[1..]);
    }
  }

  /** Kind counts and created clients of the event sequences one client round
      can issue, spelled out element by element. */
  lemma Unroll2(a: Event, b: Event, k: Kind)
    ensures Count([a, b], k) == Indicator(a, k) + Indicator(b, k)
    ensures CreatedClients([a, b]) == CreatedClients([a]) + CreatedClients([b])
  {
    CountCons(b, [], k);
    CountCons(a, [b], k);
    CreatedClientsCons(b, []);
    CreatedClientsCons(a, [b]);
    CreatedClientsCons(a, []);
    assert [a, b] == [a] + [b];
    assert [b] == [b] + [];
    assert [a] == [a] + [];
  }

  lemma Unroll4(a: Event, b: Event, c: Event, d: Event, k: Kind)
    ensures Count([a, b, c, d], k) == Count([a, b], k) + Count([c, d], k)
    ensures CreatedClients([a, b, c, d]) == CreatedClients([a, b]) + CreatedClients([c, d])
  {
    assert [a, b, c, d] == [a, b] + [c, d];
    CountAppend([a, b], [c, d], k);
    CreatedClientsAppend([a, b], [c, d]);
  }

  lemma Unroll5(a: Event, b: Event, c: Event, d: Event, e: Event, k: Kind)
    ensures Count([a, b, c, d, e], k) == Count([a, b, c, d], k) + Indicator(e, k)
    ensures CreatedClients([a, b, c, d, e]) == CreatedClients([a, b, c, d]) + CreatedClients([e])
  {
    assert [a, b, c, d, e] == [a, b, c, d] + [e];
    CountAppend([a, b, c, d], [e], k);
    CreatedClientsAppend([a, b, c, d], [e]);
    CountSingle(e, k);
  }

  /** An ephemeral round: create, connect, issue, close, report. */
  lemma EphemeralRound(n: ClientId, info: Object, req: Request, done: Event, k: Kind)
    requires done.Callback?
    ensures var t := [NewClient(n), Connect(n, info), Issue(n, req), Close(n), done];
      && Count(t, k) == (if k in {NewClientKind, ConnectKind, CloseKind, CallbackKind} || k == RequestKind(req) then 1 else 0)
      && CreatedClients(t) == [n]
      && OnlyClient(t, Some(n))
  {
    Unroll2(NewClient(n), Connect(n, info), k);
    Unroll2(Issue(n, req), Close(n), k);
    Unroll4(NewClient(n), Connect(n, info), Issue(n, req), Close(n), k);
    Unroll5(NewClient(n), Connect(n, info), Issue(n, req), Close(n), done, k);
    CreatedClientsCons(NewClient(n), []);
    CreatedClientsCons(Connect(n, info), []);
    CreatedClientsCons(Issue(n, req), []);
    CreatedClientsCons(Close(n), []);
    CreatedClientsCons(done, []);
  }

  /** The first round of a keepAlive session: create, connect, issue, report. */
  lemma FirstKeptRound(n: ClientId, info: Object, req: Request, done: Event, k: Kind)
    requires done.Callback?
    ensures var t := [NewClient(n), Connect(n, info), Issue(n, req), done];
      && Count(t, k) == (if k in {NewClientKind, ConnectKind, CallbackKind} || k == RequestKind(req) then 1 else 0)
      && CreatedClients(t) == [n]
      && OnlyClient(t, Some(n))
  {
    Unroll2(NewClient(n), Connect(n, info), k);
    Unroll2(Issue(n, req), done, k);
    Unroll4(NewClient(n), Connect(n, info), Issue(n, req), done, k);
    CreatedClientsCons(NewClient(n), []);
    CreatedClientsCons(Connect(n, info), []);
    CreatedClientsCons(Issue(n, req), []);
    CreatedClientsCons(done, []);
  }

  /** A later round of a keepAlive session: issue on the cached client, report. */
  lemma ReusedRound(c: ClientId, req: Request, done: Event, k: Kind)
    requires done.Callback?
    ensures var t := [Issue(c, req), done];
      && Count(t, k) == (if k == CallbackKind || k == RequestKind(req) then 1 else 0)
      && CreatedClients(t) == []
      && OnlyClient(t, Some(c))
  {
    Unroll2(Issue(c, req), done, k);
    CreatedClientsCons(Issue(c, req), []);
    CreatedClientsCons(done, []);
  }
}
