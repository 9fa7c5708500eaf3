# termunator session core in Dafny

This project models the session core of termunator, a desktop SSH client with a Go backend and a Svelte/TypeScript frontend. It covers three parts:

- **The SSH service** (`SSHService`):
  - the connect sequence: configuration, dial, channel, PTY, pipes and shell;
  - the session table and the per-request checks on it (input, resize, output collection, keepalive, close, listing, ping);
  - the per-session output buffers;
  - the output pump, which copies each session's stdout into its buffer and measures latency.
- **The application layer** (`App`):
  - connecting a saved host by ID;
  - turning a connect outcome into the reply the user interface branches on (session ID, host-key verification request, or error);
  - accepting a host key into, and clearing, `~/.ssh/known_hosts`.
- **The frontend state**:
  - the session caches;
  - the derived views: active session, hosts grouped by tag, recent hosts, macros for the active host;
  - the terminal-output and notification updates.

Modules:

| file | module | what it holds |
|---|---|---|
| `outcomes.dfy` | `Outcomes` | `Option` and `Result` |
| `go_text.dfy` | `GoText` | the `%d` rendering of integers and `strings.TrimSpace`, with their properties |
| `go_errors.dfy` | `GoErrors` | Go error chains (`%w` wrapping) and `errors.As` for the verification signal |
| `models.dfy` | `Models` | the host record and the host-key description |
| `ssh_config.dfy` | `SshConfig` | `BuildSSHConfig` and agent access |
| `host_key_check.dfy` | `HostKeyCheck` | the decision of the host-key callback |
| `session_pump.dfy` | `SessionPump` | sessions, read events, latency bookkeeping, output buffers |
| `ssh_service.dfy` | `Services` | the connect sequence and the `SSHService` class |
| `app.dfy` | `AppApi` | the `App` class: connect by ID, reply classification, known_hosts |
| `seq_util.dfy` | `SeqUtil` | order-preserving filter, subsequence, counting |
| `stores.dfy` | `Stores` | the frontend caches (classes) and derivations (functions) |

### How the environment is modelled

Nothing outside the program's own logic is executed. What the outside world reports is an input of each operation:

- **Key parsing and the agent socket:** `KeyParse` (parsed, passphrase missing, unparsable) and `AgentAccess` (the socket variable and the dial failure).
- **The dial:**
  - `DialOutcome` is either a network failure or a key exchange. A key exchange presents a key and may be followed by a later handshake failure.
  - The host-key callback runs on the presented key with the dial address `hostname:port`.
  - A callback rejection, and any later handshake failure, comes back from the dial wrapped as `ssh: handshake failed: …`.
- **Setup steps:** `SetupOutcome` is the first of channel, PTY, stdin, stdout, stderr and shell that fails, if any.
- **known_hosts lookup:** `KnownHostsLookup` is what the known_hosts checker reports: file unavailable, key known, key mismatch (`KeyError`) or another error. The parsing and matching of known_hosts is not modelled.
- **The clock:** `nanos` for session IDs, and milliseconds for probes and reads.
- **File-system outcomes** of `AcceptHostKey` and `ClearKnownHosts`.
- **Registry failures** and the stdin/request/window-change failures.

Go error values are an `Error` datatype:

- `Msg(text)` is a leaf error;
- `Wrap(context, cause)` is `fmt.Errorf("context: %w", cause)`;
- `HostKeyNeeded(info)` is the verification signal.

An environment failure is always a `Msg`, so the verification signal appears only where the program itself creates it.

The host-key callback reports `isNewHost` as false for every `KeyError`, including one with an empty list of expected keys. That is the form the known_hosts checker uses for a host it has no line for. The model reproduces this branch as written (internal/services/ssh.go:266-271) in `HostKeyCheck.HostKeyDecision`, which the connect uses; the intended decision is `HostKeyCheck.IntendedHostKeyDecision` (see "## Findings").

The output pump is modelled as one iteration step (`PumpIteration`) and as the loop over a finite sequence of read events (`StreamOutput`, whose loop is `PumpActive`). The specification functions are `SessionPump.PumpReads` (how many reads the pump makes), `SessionPump.AfterReads` (the session they leave) and `SessionPump.BuffersAfter` (the buffers they leave, through `Received`). Latency is the time from the last probe (input or keepalive) to the first read that returned any bytes, whatever those bytes were.

## Model

| member | source | states |
|---|---|---|
| GoText.IntToString | internal/services/ssh.go:86 | `%d` renders a non-empty text that starts with a minus sign exactly for a negative number |
| GoText.IntToStringInjective | internal/services/ssh.go:161 | distinct integers render to distinct `%d` strings |
| GoText.IntToStringDenotes | internal/services/ssh.go:86 | after the sign, the `%d` rendering reads back as the magnitude of the number |
| GoText.DecimalDenotes | internal/services/ssh.go:161 | the digits of a natural number's decimal rendering denote that number |
| Services.SessionIdFor | internal/services/ssh.go:161 | a session ID is "session_" followed by more text (the clock reading) |
| Services.SessionIdsDistinct | internal/services/ssh.go:161 | session IDs made at different clock readings differ |
| GoText.TrimSpace | internal/services/ssh.go:244 | the trimmed key is the slice of the input that starts at its first character that is not white space, neither starts nor ends with white space, and only white space was cut before and after it |
| GoText.TrimSpaceIdempotent | internal/services/ssh.go:244 | trimming an already trimmed key changes nothing |
| GoErrors.AsHostKeyNeeded | app.go:324-339 | `errors.As` finds the verification signal exactly when it is the innermost cause of the chain, and returns its details |
| GoErrors.SignalTextEndsWithHost | internal/services/ssh.go:34-36 | the text of any error that carries the signal ends with "host key verification needed for " and the hostname, whatever contexts wrap it |
| GoErrors.AsHostKeyNeededSeesThroughWrap | app.go:324-339 | wrapping an error with a context does not change what `errors.As` finds |
| SshConfig.SshAgentAuth | internal/services/ssh.go:293-306 | agent authentication succeeds exactly when the socket variable is set and the socket answers; otherwise the unset-variable error or the wrapped dial failure |
| SshConfig.BuildSSHConfig | internal/services/ssh.go:184-237 | a configuration exists exactly when the credentials of the host's method tag are usable; it has the host's user, a 30-second timeout and the one method of the tag; each rejection (empty password, empty key, encrypted key, unparsable key, agent failure, unknown tag) has its own error |
| SshConfig.ConfigErrorIsNotVerification | internal/services/ssh.go:184-237 | no configuration error carries the host-key verification signal |
| HostKeyCheck.HostKeyDecision | internal/services/ssh.go:239-291 | the key is accepted exactly when the home directory is found and the known_hosts check reports it known; otherwise the signal carries the hostname, algorithm, fingerprint and trimmed key, and says "new host" unless the check reported a key mismatch |
| HostKeyCheck.UnlistedHostReportedKnown | internal/services/ssh.go:265-271 | as written, a host known_hosts has no line for (a `KeyError` with no expected keys) is reported as a known host, not a new one |
| HostKeyCheck.IntendedHostKeyDecision | internal/services/ssh.go:239-291 | the intended decision: accepted exactly for a known matching key, and otherwise the signal with the key's details |
| HostKeyCheck.IntendedDecisionThreeWay | internal/services/ssh.go:239-291 | the intended decision is three-way: a matching key is accepted; a listed host with other keys is a changed key; an unlisted host, a missing home directory, an unreadable file or another error is a first contact |
| HostKeyCheck.DecisionsDifferOnlyForUnlistedHost | internal/services/ssh.go:265-271 | the decision as written and the intended one differ exactly for a host known_hosts does not list |
| Services.Address | internal/services/ssh.go:86 | the dial address is the hostname, a colon, then the port in `%d` form |
| Services.AddressSeparatesPorts | internal/services/ssh.go:86 | hosts with the same hostname and different ports are dialed at different addresses |
| Services.DialError | internal/services/ssh.go:85-92 | the dial fails with the network error, or with the callback's signal or a later handshake failure, each wrapped by the handshake; it succeeds only when the callback accepts and the handshake completes |
| Services.PtyRequestFor | internal/services/ssh.go:114 | the intended PTY request for a `cols` x `rows` terminal is an `xterm-256color` terminal `rows` high and `cols` wide |
| Services.PtySizeMatchesResize | internal/services/ssh.go:114 | the intended PTY request has the size a later resize to the same columns and rows sets |
| Services.PtyRequestAsWrittenSwapsSize | internal/services/ssh.go:114 | the request as written has the intended size exactly when the terminal is square; the default connect asks for 80 rows of 24 columns |
| Services.EstablishedHasPty | internal/services/ssh.go:95-120 | every established session, and every failure after the channel opened, went through the PTY request |
| Services.Establish | internal/services/ssh.go:74-182 | a session exists exactly when the configuration, the dial and every setup step succeed; it is active, has no ping, no pending probe and the clock-derived ID; each failing step gives its own wrapped error and releases exactly the handles opened before it (client only after the channel step, channel then client after later steps) |
| Services.ConnectSignalsVerification | internal/services/ssh.go:74-92 | a connect fails with the verification signal exactly when the configuration was built and the callback rejected the key, and the signal carries the callback's details unchanged |
| Services.RequireActive | internal/services/ssh.go:308-319 | an unknown ID is "not found", a known inactive one "not active", an active one yields its session |
| Services.SSHService.ConnectWithDimensions | internal/services/ssh.go:74-182 | only a successful connect changes the table, by filing the new active session under its ID; a failure returns the connect error and the released handles and leaves the table as it was; the PTY request is sent exactly when the connect gets past the new channel, as written: `cols` high and `rows` wide |
| Services.SSHService.Connect | internal/services/ssh.go:69-71 | the same outcome, table change and released handles as a connect with 80 columns and 24 rows; the PTY it requests is 80 high and 24 wide, as written |
| Services.SSHService.SendInput | internal/services/ssh.go:308-326 | an unknown or inactive session is refused and nothing changes; otherwise the send time becomes the pending probe and the write's failure, if any, is returned |
| Services.SSHService.ResizeTerminal | internal/services/ssh.go:328-342 | a window change of the given height and width is sent only to an active session; its failure is returned |
| Services.SSHService.ReadOutput | internal/services/ssh.go:344-363 | for an active session, everything buffered is returned and the buffer emptied; otherwise the refusal and no buffer change |
| Services.SSHService.CheckSessionHealth | internal/services/ssh.go:365-386 | for an active session, the probe time is recorded and a failed keepalive is reported with the session ID; otherwise the refusal and nothing changes |
| Services.SSHService.CloseSession | internal/services/ssh.go:388-407 | a known session (active or not) ends inactive, releases channel then client, and exactly its entry leaves the table; an unknown ID is refused |
| Services.SSHService.GetActiveSessions | internal/services/ssh.go:409-420 | the result holds exactly the active sessions of the table, under their IDs |
| Services.SSHService.GetSessionPing | internal/services/ssh.go:494-502 | the last ping of any known session, active or not; an unknown ID is refused |
| Services.SSHService.AddToSessionBuffer | internal/services/ssh.go:507-511 | the output is appended to that session's buffer only |
| Services.SSHService.GetAndClearSessionBuffer | internal/services/ssh.go:513-519 | returns the buffered text and leaves the buffer empty |
| Services.SSHService.PumpIteration | internal/services/ssh.go:460-488 | one pass over an active session: a read of some bytes settles the pending probe and is appended to its buffer; an empty read, a timeout or another error changes nothing; end of stream stops the pump; no other session changes |
| Services.SSHService.PumpActive | internal/services/ssh.go:454-489 | the loop while the session is active: it reads exactly up to and including the first end of stream (or every read), and leaves the session and the buffers as those reads leave them |
| Services.SSHService.StreamOutput | internal/services/ssh.go:449-492 | a pump on a removed or inactive session reads nothing and changes nothing; on an active one it runs as `PumpActive` states |
| SessionPump.PumpReads | internal/services/ssh.go:454-468 | the pump makes every read up to and including the first end of stream, or all of them when none ends the stream: no read before the last is an end of stream |
| SessionPump.FirstEndAt | internal/services/ssh.go:465-468 | with no end of stream before read `k`, read `k` ends the stream exactly when it is the first end of stream |
| SessionPump.BuffersAfterStep | internal/services/ssh.go:474-485 | one more read appends its bytes, if any, to the buffer the earlier reads left, and touches nothing when it delivers none |
| SessionPump.ObserveOutput | internal/services/ssh.go:477-481 | output settles a pending probe: the ping becomes the time since it was sent, and the probe is cleared |
| SessionPump.ReceivedConcat | internal/services/ssh.go:474-485 | what the pump delivers over consecutive runs of reads is their concatenation |
| SessionPump.AfterReadsConcat | internal/services/ssh.go:454-489 | pumping two consecutive runs of reads is pumping their concatenation |
| SessionPump.SilentReadsChangeNothing | internal/services/ssh.go:461-472 | reads that deliver nothing leave the session unchanged |
| SessionPump.NoProbeNoChange | internal/services/ssh.go:478-481 | with no probe pending, output changes neither ping nor probe |
| SessionPump.PingIsTimeToFirstOutput | internal/services/ssh.go:474-481 | after a probe, the recorded ping is the time to the first read that returned bytes, and later output does not change it |
| SessionPump.Appended | internal/services/ssh.go:507-511 | appending extends that session's buffer by the output and leaves every other buffer as it was |
| SessionPump.AppendedTwice | internal/services/ssh.go:507-511 | two appends equal one append of both outputs in order |
| Services.SSHService.AppendThenCollect | internal/services/ssh.go:504-519 | after output is appended to a buffer, collecting returns what was buffered before followed by the output, and collecting again returns "" |
| AppApi.LookupHost | app.go:93-101 | a registry failure is wrapped as "failed to get host", an unknown ID is "host not found", otherwise the stored host |
| AppApi.ClassifyConnect | app.go:305-350 | a session ID is returned as connected; an error that is or wraps the verification signal becomes a verification request with its details and no error; any other error is returned unchanged |
| AppApi.ConnectReplyThreeWay | app.go:296-351 | end to end, the user is asked about the key exactly when the configuration was built and the callback rejected the key, and sees the callback's details; a session ID comes back exactly when every connect step succeeded; every other outcome is the service's error |
| AppApi.KnownHostsEntry | app.go:280 | the entry is the hostname, one space, the trimmed key and a newline |
| AppApi.KnownHostsEntryRoundTrip | app.go:278-280 | the line written for an accepted key reads back as the hostname and the trimmed key, for a hostname without spaces |
| AppApi.LastUseRecorded | app.go:112 | after a connect, the host's last use becomes the connect time, unless recording it failed; no other host and no other modelled field changes |
| AppApi.App.ConnectSSHWithDimensions | app.go:90-115 | a failed lookup stops before any connect; a successful connect returns the session ID and records the last use; a failed connect returns the service's error and changes no host |
| AppApi.App.ConnectSSHWithHostKeyVerification | app.go:296-351 | the reply is the classification of the connect outcome; the last use is recorded only when the connect succeeded; a failed lookup stops before any connect |
| AppApi.App.AcceptHostKey | app.go:264-294 | on success exactly one entry "hostname trimmed-key\n" is appended after the existing entries; each failing file-system step gives its own error and leaves the file unchanged (a failed write is taken to write nothing) |
| AppApi.App.ClearKnownHosts | app.go:391-408 | on success the file is empty; a missing home directory or a failed truncation gives its own error and leaves the file unchanged |
| Stores.SessionCache.Set | frontend/src/types/stores.ts:8-10 | the content is stored under the ID and a later get returns it; other IDs keep theirs |
| Stores.SessionCache.Get | frontend/src/types/stores.ts:12-14 | the stored content, or nothing for an unknown ID |
| Stores.SessionCache.Has | frontend/src/types/stores.ts:16-18 | true exactly when content is stored under the ID |
| Stores.SessionCache.Delete | frontend/src/types/stores.ts:20-22 | removes that ID only |
| Stores.SessionCache.Clear | frontend/src/types/stores.ts:24-26 | the cache becomes empty |
| Stores.SessionSFTPLayouts.Set | frontend/src/types/stores.ts:33-35 | the layout is stored under the ID |
| Stores.SessionSFTPLayouts.Get | frontend/src/types/stores.ts:37-39 | the stored layout, or hidden when none is stored |
| Stores.SessionSFTPLayouts.Delete | frontend/src/types/stores.ts:41-43 | removes that ID only |
| Stores.SessionSFTPLayouts.Clear | frontend/src/types/stores.ts:45-47 | the layouts become empty |
| Stores.FirstWithId | frontend/src/types/stores.ts:127 | the position of the first session with the ID, or none exactly when no session has it |
| Stores.ActiveSession | frontend/src/types/stores.ts:123-129 | no session when no tab is active (none or empty); otherwise the first listed session with the tab's ID, if any |
| Stores.HostsGroupedByTags | frontend/src/types/stores.ts:131-147 | the loops build the reference grouping: each group is non-empty and lists its members in host order |
| Stores.Members | frontend/src/types/stores.ts:131-147 | a group's reference contents hold exactly the hosts that belong to it |
| Stores.GroupedIsMembers | frontend/src/types/stores.ts:131-147 | exactly the groups with members exist, and each holds the hosts in list order, a host once per matching tag |
| Stores.GroupedMembership | frontend/src/types/stores.ts:131-147 | a host is listed under a group exactly when it belongs to it: tagless hosts under "Untagged", tagged hosts under each of their tags |
| Stores.GroupedKeepsOrder | frontend/src/types/stores.ts:131-147 | when no host repeats a tag, each group is the order-preserving filter of the hosts belonging to it |
| Stores.SortNewest | frontend/src/types/stores.ts:152-156 | the sort result is ordered newest first and is a permutation of its input |
| Stores.RecentHosts | frontend/src/types/stores.ts:149-158 | at most five hosts are shown; `Stores.RecentHostsAreNewest` states which |
| Stores.RecentHostsAreNewest | frontend/src/types/stores.ts:149-158 | the recent hosts have a last use, are newest first, number min(5, used hosts), and no used host left out is newer than any shown |
| Stores.MacrosForActiveHost | frontend/src/types/stores.ts:160-170 | all macros without an active session; otherwise exactly the macros listing no hosts or listing the session's host, each as many times as it is listed |
| Stores.MacrosKeepOrder | frontend/src/types/stores.ts:160-170 | the offered macros keep their original order |
| Stores.AddTerminalOutput | frontend/src/types/stores.ts:216-221 | one chunk is appended to that session's list; other sessions' lists are unchanged |
| Stores.ClearTerminalOutput | frontend/src/types/stores.ts:223-228 | that session's list becomes empty; others are unchanged |
| Stores.ClearAfterAdd | frontend/src/types/stores.ts:216-228 | clearing after an append is the same as clearing |
| Stores.EffectiveDuration | frontend/src/types/stores.ts:199 | a missing or zero duration becomes 5000; any other is kept |
| Stores.AddNotification | frontend/src/types/stores.ts:194-202 | one notification with the given ID and defaulted duration is appended after the existing ones |
| Stores.RemoveNotification | frontend/src/types/stores.ts:212-214 | every notification with the ID is dropped and every copy of every other is kept |
| Stores.RemoveNotificationKeepsOrder | frontend/src/types/stores.ts:212-214 | the remaining notifications keep their order, and removing twice is removing once |
| Stores.RemoveUndoesAdd | frontend/src/types/stores.ts:194-214 | removing a just-added notification (with a fresh ID) restores the list |

## Findings

| source | as written | input that shows it | evidently intended | confidence | as-written member | corrected member |
|---|---|---|---|---|---|---|
| internal/services/ssh.go:114 | `RequestPty("xterm-256color", cols, rows, modes)`, but `RequestPty` of golang.org/x/crypto/ssh takes the height before the width, so the PTY is `cols` rows high and `rows` columns wide | `Connect`, which passes 80 columns and 24 rows, requests a PTY 80 rows high and 24 columns wide | `rows` high and `cols` wide, the order `ResizeTerminal` uses for `WindowChange(height, width)` at internal/services/ssh.go:341 | high (library signature); not executed | Services.PtyRequestAsWrittenSwapsSize | Services.PtyRequestFor |
| internal/services/ssh.go:266-271 | every `*knownhosts.KeyError` sets `isKnownHost`, but the known_hosts checker also returns a `KeyError` with an empty `Want` for a host it has no line for | a first connection to a host not listed in an existing known_hosts file is reported with `isNewHost` false, as a changed key | a host is known only when the `KeyError` lists some expected key; an unlisted host is new | high (library contract); not executed | HostKeyCheck.UnlistedHostReportedKnown | HostKeyCheck.IntendedHostKeyDecision |

## Left out

- Network and protocol work is not modelled: TCP, the SSH handshake, channels, the server's handling of PTY and window-change requests (only the requests' sizes are recorded), `SendRequest`, the agent protocol and `ExecuteCommand`. Each is an input outcome (`DialOutcome`, `SetupOutcome`, the write, request and window-change failures). Among the handles, only the order in which they are closed is recorded.
- Goroutines and locks are not modelled: the `go streamOutput` start, the session mutex and the buffer mutex. Operations are sequential steps, so interleavings of the pump with requests are not covered.
- Read deadlines and sleeps in the pump are left out; they are timing only. A timeout is one kind of read event.
- Services.SSHService.PumpIteration: a read that returns bytes together with an error drops those bytes, because the error is checked first. The model's read events are either bytes or an error, so they cannot express that combination.
- Services.SSHService.StreamOutput: the pump runs over a finite sequence of reads. Reads beyond it, and a pump that never ends, are not modelled.
- Sharing of the session object is not modelled. In the program the pump and `CloseSession` hold the same session object, and a closed session's pump sees it inactive. In the model, closing removes the entry, and the pump stops on a removed or inactive session alike.
- The output buffers are a package-level map shared by all services. The model makes them a field of the service.
- The known_hosts library is not modelled: its parsing and matching, and the SHA-256 fingerprint and authorized-key encoding of the presented key. Their results are inputs.
- `GetKnownHosts` returns a fixed placeholder and `RemoveKnownHost` does nothing. Neither is modelled.
- The host registry (SQLite), its encryption and the salt bootstrap are not modelled. A registry failure is an input. The registry's clock reading for the last use is the `now` input.
- SFTP, macros execution, history, private-key management and the frontend's API glue are not modelled. Neither are logging, the terminal theme and the other plain UI flags.
- AppApi.LastUseRecorded: the registry also sets the host's `updated_at` to the same time (internal/storage/database.go:243-245). The model's host record has no `created_at` or `updated_at`, so that change is not modelled.
- Services.SSHService.Connect: the terminal modes sent with the PTY request (echo on, 14400 baud both ways) are not modelled.
- AppApi.App.AcceptHostKey: a failed write is modelled as writing nothing. In Go, `WriteString` can fail after writing part of the entry, leaving a partial line in known_hosts; the model's file is a sequence of whole entries and cannot hold one.
- Stores.HostsGroupedByTags: the order of the groups is not modelled. The JavaScript object lists its keys in first-appearance order; the model's grouping is a `map`, which has no order. Only each group's contents and their order are stated.
- Stores.AddNotification: the ID taken from `Date.now()` is a parameter, and the timer that removes the notification after its duration is not modelled.
- Stores.EffectiveDuration: JavaScript also treats `NaN` as missing. Durations are integers in the model.
- Stores.RecentHostsAreNewest: the order among hosts used at the same time is not stated. `SortNewest` keeps them in list order, as JavaScript's stable sort does, but no lemma states it.
- Stores.GroupedKeepsOrder: the plain filter form holds only when no host repeats a tag. With repeated tags `Stores.GroupedIsMembers` gives the exact contents.
- JavaScript object keys that clash with `Object.prototype` members (such as a tag named `constructor`) are not modelled. The model's grouping and terminal-output records are plain maps.
- Stores.ActiveSession: `activeTab` is `null` or a string. The only falsy string is the empty one, which is modelled.
