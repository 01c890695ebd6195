# nodemiral Session — a Dafny model

This project models the per-host `Session` of nodemiral (`lib/session.js`): the
policy that decides whether an SSH connection is reused or created and closed per
call, how a copy chooses between sending rendered text and sending a raw file,
how `executeScript` renders a script and hands it to `execute`, and the shape of
the completion report `(err, code, info)`.

The session is an immutable record (`Sessions.Session`): host, credentials,
options, the `keepAlive` flag, the optional cached client and the identity the
next `new SSHClient()` receives. Each public operation is a pure step
(`Copy`, `Execute`, `ExecuteScript`, `CloseSession`) that returns the next
session and the collaborator events it issued, in order (`Trace.Event`):
`ReadFile`, `Render`, `NewClient`, `Connect`, `Issue` (a `putFile`, `putContent`
or `execute` request), `Close`, `Callback` and `Thrown`.

The collaborators are not interpreted. The file reader and the template engine
are total functions returning a `Result` (`Sessions.Collaborators`). The
completion a client reports for a transfer or an execution is an argument of the
operation. `Lifecycle.Run` runs a sequence of operations one after another.

Modules:
- `Wrappers`: `Option`, `Result`.
- `Values`: JavaScript values, truthiness and property reads.
- `Trace`: events, counting by kind, created-client lists.
- `ConnectionInfo`: `_getSshConnInfo`.
- `Sessions`: the constructor, `_withSshClient`, `_applyTemplate`, `copy`, `execute`, `executeScript` and `close`.
- `Dispatch`: which requests each operation issues and what it reports.
- `Lifecycle`: operation sequences and the connection-count properties.

Points where the code behaves differently from what one might expect, all followed by the model:
- `ejs.render` is called with no guard inside the file-read callback (lib/session.js:172-175). A renderer failure therefore escapes as an exception (`Thrown`). It is not reported through the callback, and no callback follows.
- The code checks `vars` for truthiness (lib/session.js:75 and 172). An empty `vars` object is still rendered.
- `close()` does not clear the cached client (lib/session.js:181-185). Later keepAlive operations reuse the closed client and connect nothing.
- With a falsy `pem`, the `password` key is set even when its value is undefined (lib/session.js:34).

## Model

| member | source | states |
|---|---|---|
| `Sessions.New` | lib/session.js:13-16 | the session stores `host` and `auth` as given and the options, `{}` when absent; the keepAlive policy is the truthiness of `options.keepAlive` (false when options are absent); no client is cached and no client has been created yet |
| `ConnectionInfo.Defaults` | lib/session.js:24-35 | the defaults hold `host`, `username = auth.username` and `readyTimeout = 60000`; `privateKey = pem` exactly when `pem` is truthy; otherwise `password = auth.password` (even if undefined); never both |
| `ConnectionInfo.Resolve` | lib/session.js:24-39 | the resolved keys are the defaults' keys plus the override keys; every override key carries the override's value, `host`/`username`/`readyTimeout` included; every other default keeps its value |
| `ConnectionInfo.CredentialIsExclusive` | lib/session.js:31-37 | when the overrides leave the credentials alone, exactly one of `privateKey`, `password` is present, and it holds the credential that `pem` selects |
| `ConnectionInfo.NoOverridesKeepDefaults` | lib/session.js:24-37 | an absent `ssh` option leaves the defaults unchanged: exactly the four default keys, each with its default value, the credential that `pem` selects included |
| `ConnectionInfo.OverrideRedirects` | lib/session.js:37 | `ssh = {port: 2222, host: h2}` gives port 2222 and redirects the host, and the timeout stays 60000 |
| `Sessions.ResolveArgs` | lib/session.js:61-67 | a function in the options position becomes the callback and the options become `{}`; falsy options become `{}`; a missing callback becomes a no-op |
| `Sessions.Acquire` | lib/session.js:42-51 | a keepAlive session with a cached client reuses it and issues nothing; otherwise a client with a fresh identity is created and connected with the resolved info, and a keepAlive session caches it |
| `Sessions.Release` | lib/session.js:48-56 | release is empty exactly for keepAlive sessions; otherwise it is the close of the acquired client |
| `Sessions.WithClient` | lib/session.js:41-58 | without keepAlive a round is create, connect, request, close, report, all on one fresh client; with keepAlive it is the request and the report on the cached client, preceded by create and connect only on first use |
| `Sessions.WithClientCounts` | lib/session.js:41-58 | one round creates and connects one client unless a cached one is reused; it closes one only without keepAlive; it issues one request and one report |
| `Sessions.ApplyTemplate` | lib/session.js:166-179 | the file is read first; a read failure is handed on as the read's own error; a renderer failure escapes carrying the renderer's own error; the renderer runs exactly when the read succeeds and `vars` is present (even empty), with the session's renderer options; the text handed on is the raw content without `vars` and the rendered content with them |
| `Sessions.WithDefaultVars` | lib/session.js:152 | the options handed on always carry `vars`, unchanged if given, `{}` otherwise, and keep every other property |
| `Sessions.CloseSession` | lib/session.js:181-185 | closes the cached client when there is one, does nothing otherwise, and leaves the session (its cache included) unchanged |
| `Sessions.Copy` | lib/session.js:60-123 | a copy leaves the session unchanged or changes it only as acquiring a client does |
| `Sessions.Execute` | lib/session.js:125-143 | an execution leaves the session unchanged or changes it only as acquiring a client does |
| `Sessions.ExecuteScript` | lib/session.js:145-164 | a script execution leaves the session unchanged or changes it only as acquiring a client does |
| `Dispatch.CopyPlainFile` | lib/session.js:83-85 | without `vars`, a copy issues one `putFile(src, dest)` and no `putContent`; the file is neither read nor rendered; the last event is the report `(null, 0, {})` or `(err)` |
| `Dispatch.CopyRendered` | lib/session.js:75-94 | with `vars`, a readable and renderable file is read, rendered with `vars` and the renderer options, and sent as one `putContent(text, dest)` with no `putFile`; the report `(null, 0, {})` or `(err)` comes last |
| `Dispatch.CopyReadFailure` | lib/session.js:75-79 | with `vars`, an unreadable file yields the read then `callback(err)`, and the session is unchanged, so no client is acquired |
| `Dispatch.CopyRenderThrows` | lib/session.js:172-175 | with `vars`, a renderer failure ends the copy with the exception: no client is acquired and no callback is invoked |
| `Dispatch.ExecuteForwards` | lib/session.js:125-143 | `execute` issues one `execute(command, options)` with the command and resolved options unchanged and no other request; it reports `(null, context.code, context)` on success and `(err)` on failure, last |
| `Dispatch.ExecuteScriptAlwaysRenders` | lib/session.js:150-157 | a readable script is always rendered, with `{}` when no `vars` were given, exactly once |
| `Dispatch.ExecuteScriptForwards` | lib/session.js:157-163 | a rendered script behaves as the read, the render, then `execute` of the rendered text with the same options (now carrying `vars`) and the resolved callback |
| `Dispatch.ExecuteScriptReadFailure` | lib/session.js:157-160 | an unreadable script yields the read then `callback(err)`, and no client is acquired |
| `Dispatch.CopyOverloads` | lib/session.js:60-67 | a copy called with a function as options equals one called with `{}` and that function as callback; falsy options act as `{}`; a missing callback acts as a no-op |
| `Dispatch.ExecuteOverloads` | lib/session.js:125-131 | the same three overload equivalences hold for `execute` |
| `Dispatch.ExecuteScriptOverloads` | lib/session.js:145-151 | the same three overload equivalences hold for `executeScript` |
| `Lifecycle.Run` | lib/session.js:13-46 | a run of operations never changes host, credentials, options or policy; it never replaces a cached client, and it never caches one without keepAlive |
| `Lifecycle.ApplyEffect` | lib/session.js:41-58 | one operation creates and connects a client exactly when it reaches the client and none is cached, and closes one only without keepAlive; every client event uses the acquired client; `close()` creates nothing and closes the cached client only |
| `Lifecycle.EphemeralLifecycle` | lib/session.js:49-56 | without keepAlive, N operations that reach a client give N creations, N connects and N closes; the created clients have consecutive, so distinct, identities |
| `Lifecycle.EphemeralNOps` | lib/session.js:49-56 | without keepAlive, N operations that all reach a client (executions, plain copies, successful templated copies and scripts) give N connects and N closes, and no client is shared |
| `Lifecycle.KeepAliveLifecycle` | lib/session.js:42-48 | with keepAlive, at most one client is created and connected, only when none was cached; every client event goes to the cached client; without `close()` calls nothing is closed |
| `Lifecycle.CloseThenReuse` | lib/session.js:181-185 | after `close()` the cached client stays; later operations go to the closed client, and nothing is created or connected again |
| `Lifecycle.EphemeralReleaseBeforeReport` | lib/session.js:87-141 | without keepAlive, an operation that reaches a client ends with create, connect, request, close of that same client, then the callback, whatever the transfer or execution reported |
| `Lifecycle.NewSessionLifecycle` | lib/session.js:13-58 | from construction, a session with a truthy `keepAlive` connects at most once and, without `close()`, never closes; any other session connects and closes once per operation that reaches a client |

## Left out

- The SSH client (`./ssh`) is not part of this model. Its `connect`, `putFile`, `putContent`, `execute` and `close` appear only as events. Transfer and execution completions are arguments of the operation.
- `fs.readFile` and `ejs.render` are uninterpreted functions returning a result or an error. The template language is not modelled.
- The progress bar and the terminal check (lib/session.js:97-114) are user interface. The percentage arithmetic is floating point. The `onProgress` option passed to `putFile` is not part of the `PutFile` event.
- Debug logging (lib/session.js:21, 72) is a side effect only.
- The call-without-`new` idiom (lib/session.js:9-11) and the unused `_tasks`/`_callbacks` fields (lib/session.js:18-19) are not modelled. `Sessions.New` is the single construction entry point.
- Asynchrony and interleaving are not modelled. Each operation runs to its completion before the next starts. Concurrent operations on a shared keepAlive client are not serialized by the code, so there is nothing to verify about them.
- Connect failures, reconnection and locking are not modelled, because the code has none. `connect` is fired and not awaited, so its outcome never reaches a callback.
- `executeScript` writes `vars` into the caller's own options object (lib/session.js:152). The model is value-based: it forwards the updated options, but the caller cannot see the mutation.
- Non-object `vars` or `ssh` values that are truthy (a string, say) are not modelled: `vars` and `ssh` are either absent or plain objects.
- NaN is not modelled among the falsy values.
- Operation options keep `vars` apart from the other properties, and a present but falsy `vars` (`null`, `0`, `""`) is folded into an absent one. So `execute` does not hand on a falsy `vars` verbatim, as lib/session.js:134 would; the code only ever tests `vars` for truthiness (lines 75 and 172), so no behaviour of this model depends on the difference. The other properties are meant to exclude a `"vars"` key.
- Sessions.Copy: its own contract is only a frame (the session is unchanged, or changed as acquiring a client changes it); its dispatch properties are the `Dispatch` and `Lifecycle` lemmas.
- Sessions.Execute: its own contract is only a frame; its forwarding and report are `Dispatch.ExecuteForwards`.
- Sessions.ExecuteScript: its own contract is only a frame; its rendering and forwarding are the `Dispatch.ExecuteScript*` lemmas.
