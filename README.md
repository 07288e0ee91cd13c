# hourtab core, modelled in Dafny

hourtab is a daemon that keeps count of working time per local code project.
It watches each project's directory for file-system activity and keeps the
counters in a session. It saves that session to disk on a timer. Short-lived
clients reach the session over a local RPC endpoint: a Unix socket, or a TCP
port on platforms without one.

This project models the sequential logic of that core:

- **Session registry** (`hourtab.dfy`, module `Hourtab`). `Session` is a class
  holding the list of `Project` records (`projects`) and the watcher
  subscriptions made so far (`watched`). Its methods mirror the Go methods:
  - lookup by plain string prefix (`GetProject`, via the loop `FindOwner`);
  - append (`AddProject`), which depends on the outcome of the watch
    subscription;
  - swap-with-last removal (`UntrackProject`);
  - the timeout sweep (`TimeoutProjects`) and one save-loop iteration
    (`SaveTick`);
  - the watch loop's start-up subscriptions (`WatchAll`) and its handling of
    one event (`HandleEvent`: ignore, extend the watch, or bump).

  `New` is the step-ordered startup sequence. `SessionTimeout` derives the
  timeout exactly, including the 64-bit wrap-around of the Go expression.
  The functions `OwnerIndex`, `ExactIndex` and `SwapRemove` specify the list
  operations, and lemmas state their properties.
- **RPC handlers** (`hourtab_rpc.dfy`, module `HourtabRpc`). `RPCSession` has
  the four handlers. A reply pointer is modelled as the value it held before
  the call, passed in, and the value it holds after, returned.
- **IPC transport** (`ipc.dfy`, module `Ipc`). This covers the `IPCStatus`
  predicates, the platform choice between a Unix socket and the TCP port scan
  (`NewServer`), and the client's choice of what to dial (`DialTarget`,
  `NewClient`). Go has no GOOS value `"bsd"`, so under the code as written
  FreeBSD, OpenBSD and NetBSD take the TCP branch. The model keeps the three
  names the code lists.
- **Origin extraction** (`git.dfy`, module `Git`). It starts from the `url`
  value of the `remote "origin"` section. A scanner (`WordRunEnd`, `MatchAt`,
  `FirstMatch`) finds the first match of `(?:/|:)(\w+/\w+)\.git`.
  `GetOriginIsLeftmostMatch` proves that the scanner returns exactly the group
  of the leftmost match of the regular expression, as the declarative
  `PatternAt` defines it. `\w` is ASCII-only and excludes both `/` and `.`, so
  each word run in a match must be maximal. That makes the match at each
  position unique. Strings are sequences of characters. Non-ASCII characters
  are neither word characters nor delimiters, so scanning characters gives
  the same result as Go scanning bytes.

Shared modules: `Errors` (the `Error` value with `errors.New`/`errors.Wrap`
shapes, `Option`, `Result`, `Outcome`), `Ints` (the Go integer widths) and
`Projects` (the `Project` record and `Transition`). `Options` holds the
`SessionOptions` record and `DefaultOptions`.

Every outcome of a collaborator is a parameter. This covers the watcher's
`AddRecursive`/`Add`, `TryLock`, each `net.Listen` and `net.Dial`, `Save`,
`LoadSession`, the home-directory lookup and the clock.

`Project.bump` and `Project.timeout` are called but defined in none of the
files modelled here. Each operation that uses them takes them as a parameter
of type `Transition`, so its contracts hold whatever those bodies do.

Behaviour of the code worth noting:

- A client given a descriptor with neither a socket path nor a port gets a
  client with no connection and no error. It does not fail.
- A missing snapshot makes loading fail. It does not produce an empty session.
- A failure after the master lock is taken does not release the lock.
- The TCP scan does not stop at the first port that binds (see Findings).
- Lookup takes the first prefix owner in list order, and `AddProject` appends.
  An appended project therefore owns the paths under its root only where no
  earlier project's path is also a prefix (`OwnerAfterAppend`).

## Model

| member | source | states |
|---|---|---|
| `Options.JoinDbFile` | hourtab/options.go:32 | an empty home gives `.hourtab`; otherwise the path is a directory, `/`, then `.hourtab`, where the directory is the home directory itself or the home directory without its trailing `/` |
| `Options.DefaultOptions` | hourtab/options.go:25-37 | fails exactly when the home-directory lookup fails, with that error unchanged; otherwise an interval of 10 s, a multiplier of 2, file mode 0 and the snapshot in the home directory |
| `Ipc.ScanRange` | ipc/ipc.go:54 | the ports the scan tries: `hi - lo` of them, all in `[lo, hi)`, strictly increasing |
| `Ipc.ScanRangeEnds` | ipc/ipc.go:54 | the scan's first port is `lo` and its last is `hi - 1` |
| `Ipc.ScanRangeBounds` | ipc/ipc.go:16 | with the real range, 16383 ports from 49152 to 65534 are tried, and 65535 is never tried |
| `Ipc.IPCStatus.IsUnixSocket` | ipc/ipc.go:29-31 | holds exactly when the socket path is non-empty |
| `Ipc.IPCStatus.IsTCP` | ipc/ipc.go:33-35 | holds exactly when the port is positive |
| `Ipc.UsesUnixSocket` | ipc/ipc.go:45 | holds exactly for GOOS `linux`, `darwin` and `bsd` |
| `Ipc.DialTarget` | ipc/ipc.go:83-88 | the Unix socket whenever a socket path is set, even if a port is too; TCP only when the path is empty and the port is positive; nothing exactly when neither is set |
| `Ipc.NewServer` | ipc/ipc.go:37-75 | Unix platforms: socket path recorded, port 0, nothing scanned, a failed listen wrapped as "Failed to make a Unix socket". Other platforms: ports 49152..65534 all tried in order; port 65535 recorded; the last attempt's listener kept; failure ("Can't find open ports from 49152 to 65535") exactly when 65534 fails. Exactly one descriptor field is set. On TCP the descriptor never leads to the listener |
| `Ipc.NewServerFirstFree` | ipc/ipc.go:53-65 | corrected scan: succeeds exactly when some port in the range binds; records the first such port and tries no port after it; fails only after trying the whole range; the descriptor always leads a client to the bound listener |
| `Ipc.NewClient` | ipc/ipc.go:77-95 | no target: a connectionless client and no error; a failed dial: "Failed to connect" wrapping the dial error and no client; otherwise a client on the chosen target |
| `Hourtab.HasPrefix` | hourtab/hourtab.go:113 | `strings.HasPrefix`: the string is at least as long as the prefix and begins with it, character for character |
| `Hourtab.OwnerIndex` | hourtab/hourtab.go:112-118 | the first position whose path is a string prefix of the query; none exactly when no path is a prefix |
| `Hourtab.ExactIndex` | hourtab/hourtab.go:138-139 | the first position whose path equals the query; none exactly when no path does |
| `Hourtab.SwapRemove` | hourtab/hourtab.go:141-143 | swap-with-last removal at `i`; the result is one shorter (its full effect is `SwapRemoveEffect`) |
| `Hourtab.SwapRemoveEffect` | hourtab/hourtab.go:141-143 | swap-with-last removal shortens the list by one; the former last element takes the removed index; every other position is kept; the multiset loses exactly one copy of the removed entry |
| `Hourtab.OwnerAfterAppend` | hourtab/hourtab.go:112-129 | after an append, every path under the new project's root has an owner; the new project is that owner exactly when no earlier path is a prefix of the query |
| `Hourtab.PrefixCrossesComponents` | hourtab/hourtab.go:113 | the prefix rule ignores path components: `/home/a` owns `/home/ab/main.go` |
| `Hourtab.CountOk` | hourtab/hourtab.go:220 | the number of subscriptions that succeeded: at most the number tried, and all of them when every one succeeds |
| `Hourtab.Subscribed` | hourtab/hourtab.go:219-223 | start-up subscriptions: one watch per successful subscription (exactly `CountOk` of them); every watch comes from a project whose subscription succeeded; every such project's recursive watch is present |
| `Hourtab.SessionTimeout` | hourtab/hourtab.go:85-86 | the timeout is the unsigned 64-bit value congruent to interval × multiplier modulo 2^64, which is what the int64 multiplication and the uint64 conversion compute |
| `Hourtab.SessionTimeoutExact` | hourtab/hourtab.go:85-86 | without int64 overflow, the timeout is interval × multiplier |
| `Hourtab.DefaultSessionTimeout` | hourtab/options.go:34-35 | with the default options the timeout is 20,000,000,000 ns |
| `Hourtab.Session.constructor` | hourtab/hourtab.go:78-87 | the assembled session: loaded projects, the given descriptor, the options, the derived timeout and no subscriptions yet |
| `Hourtab.Session.GetAllProjects` | hourtab/hourtab.go:101-106 | returns the project list itself |
| `Hourtab.Session.FindOwner` | hourtab/hourtab.go:112-118 | the loop finds the first prefix owner, as `OwnerIndex` specifies, and changes nothing |
| `Hourtab.Session.GetProject` | hourtab/hourtab.go:108-119 | nil exactly when no path is a prefix of the query; otherwise the project at the first owning position; the list is unchanged |
| `Hourtab.Session.AddProject` | hourtab/hourtab.go:121-131 | a failed subscription returns "Failed to add <origin>" wrapping its error and changes nothing; otherwise the project is appended with no duplicate check, its recursive watch is recorded, and nil is returned |
| `Hourtab.Session.UntrackProject` | hourtab/hourtab.go:134-150 | true exactly when some path equals the argument; false leaves the list unchanged; true removes the first exact match by swap-with-last, dropping exactly that entry from the multiset |
| `Hourtab.Session.TimeoutProjects` | hourtab/hourtab.go:249-253 | every entry replaced by the timeout operation applied to it with the same `(timeout, now)`; the length is unchanged |
| `Hourtab.Session.SaveTick` | hourtab/hourtab.go:200-206 | the sweep uses the session timeout and the tick's time; a save failure is only logged (returned) and changes nothing else |
| `Hourtab.Session.WatchAll` | hourtab/hourtab.go:219-223 | the successful start-up subscriptions are appended, in list order |
| `Hourtab.Session.HandleEvent` | hourtab/hourtab.go:229-241 | no owner: ignored, nothing changes; `Create`: only the single-path watch is extended (when that succeeds), with no bump; any other op: the first owner is bumped with the session timeout and the current time, and nothing else changes |
| `Hourtab.New` | hourtab/hourtab.go:42-95 | steps in order: defaults (only when no options are given), master lock, IPC bind, load, registration. Stops at the first failure with its error: "Failed to acquire master lock" wrapping a lock error, "Master lock already acquired, …" when the lock is held, bind and load errors unchanged. On success: a fresh session with the loaded projects and the freshly bound descriptor (not the loaded one), and the derived timeout |
| `HourtabRpc.RPCSession.constructor` | hourtab/hourtab_rpc.go:8-10 | the handler set wraps the given session |
| `HourtabRpc.RPCSession.GetAllProjects` | hourtab/hourtab_rpc.go:12-15 | the reply is the session's list; the error is always nil |
| `HourtabRpc.RPCSession.GetProject` | hourtab/hourtab_rpc.go:17-26 | "<path> not found", with the reply untouched, exactly when no project owns the path; otherwise the owning project and a nil error |
| `HourtabRpc.RPCSession.AddProject` | hourtab/hourtab_rpc.go:28-35 | the session's error unchanged, with the reply untouched; the reply is set to `Nil` only on success |
| `HourtabRpc.RPCSession.UntrackProject` | hourtab/hourtab_rpc.go:37-40 | the error is always nil; the reply is exactly the session's removed flag, with the session's removal effect |
| `Git.WordRunEnd` | git/git.go:12 | the end of the maximal `\w` run from a position: all word characters up to it, and a non-word character (or the end) at it |
| `Git.WordRunEndAt` | git/git.go:12 | a word run followed by a non-word character ends exactly there |
| `Git.MatchAt` | git/git.go:12 | a reported match satisfies the pattern at that position, with maximal runs |
| `Git.MatchAtComplete` | git/git.go:12 | every way the pattern can match at a position is the one the scanner reports (for each position the match is unique) |
| `Git.FirstMatch` | git/git.go:29 | the earliest position from `from` with a match; no match anywhere in between; none exactly when no later position matches |
| `Git.GetOrigin` | git/git.go:18-35 | an empty url fails; every failure is `ErrOriginDNE` |
| `Git.GetOriginFailure` | git/git.go:24-32 | `ErrOriginDNE` exactly when the url is empty or the pattern matches nowhere |
| `Git.GetOriginIsLeftmostMatch` | git/git.go:29-34 | a success is the group of the leftmost regex match (first match, limit 1), and the leftmost match's group is always the result |
| `Git.GetOriginShape` | git/git.go:34 | a result is word characters with exactly one `/` and a non-empty run on each side; it follows a `/` or `:` in the url and precedes a `.git` that need not end the url |
| `Git.GitlabPattern` | git/git_test.go:15 | the test url matches at its `:` with the group ending before `.git` |
| `Git.GitlabNoEarlierDelimiter` | git/git_test.go:15 | no match starts before that `:` |
| `Git.GitlabGroup` | git/git_test.go:15 | the group text is `diamondburned/meistercli` |
| `Git.GitlabExample` | git/git_test.go:22-29 | `git@gitlab.com:diamondburned/meistercli.git` yields `diamondburned/meistercli` |

## Findings

| source | as written | input that shows it | evidently intended | confidence | as-written member | corrected member |
|---|---|---|---|---|---|---|
| ipc/ipc.go:54-74 | the TCP scan never leaves the loop on a successful bind. It always ends with `Port` = 65535 and keeps only the last attempt's listener, on 65534 if that bound. Earlier successful listeners stay open unserved. | a non-Unix GOOS (e.g. `windows`) where every port binds: the status says port 65535 but the server accepts on 65534, so `NewClient` dials a port nothing serves | stop at the first port that binds and record that port; fail only when no port in the range binds | high; not executed | `Ipc.NewServer` | `Ipc.NewServerFirstFree` |

`New` takes the outcome of the bind step as a parameter, so it composes with
either scan. Only the corrected scan guarantees a descriptor that leads to the
listener (`Describes`).

## Left out

- Concurrency: the session mutex, goroutines, the `stop` channel, the ticker and `select` waits, `Start` and `Stop`. Each method is one atomic step. The unlocked sweep and the mutex-then-file-lock order in `Save` are not modelled.
- Persistence I/O: `Save` (file lock, gob encoding, `WriteFile`) and `LoadSession` are outcomes passed in (`SaveTick`'s `saved`, `New`'s `loaded`).
- `Project.Marshal`/`Unmarshal`: thin wrappers over a foreign encoder, so no round trip can be stated.
- Bodies of `Project.bump` and `Project.timeout`: not in the modelled files, so they are `Transition` parameters.
- Pointer aliasing of `*Project`: projects are values. A bump replaces the entry at the owner's index. A project that appears twice in the list, or that a caller holds, is not shared.
- The network and RPC library: `net.Listen`, `net.Dial`, `rpc.NewServer`, `Server.Register` (its panic is not modelled) and `rpc.NewClient` are outcomes or are omitted. `Server.Accept` is called synchronously at ipc/ipc.go:72 and serves until the listener fails, so the model's `NewServer` returns where the Go call would block. This is not modelled.
- The watcher library: its internal state, `Start` and the `Closed` channel. `watched` records only the subscriptions that succeeded. A failed `AddRecursive` is treated as subscribing nothing.
- Logging: log lines are not modelled. A failed subscription in `WatchAll` or `HandleEvent` shows only as the missing entry in `watched`.
- INI parsing (`ini.Load`, the section and key lookup, its wrapped error): the model starts from the `url` string.
- Command line, environment and the home-directory lookup: main.go and server.go are not part of this model. The lookup's result is a parameter. `filepath.Join`'s cleaning is modelled only for an empty home and a trailing `/`.
- `Options.JoinDbFile`: does not model `filepath.Clean` of `..`, `.` or repeated separators in the home directory, because that cleaning belongs to the Go library.
