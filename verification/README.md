# Pairing server core, modelled in Dafny

`index.js` serves a WhatsApp pairing-code login. `GET /pair?phone=…` opens a socket through the
messaging library and answers with a pairing code. When the connection later opens, the server
draws an access key `XSTRO_aa_bb_cc` and moves the staged credentials folder `auth` to
`upload/<key>`. It then asks its supervisor to restart with `process.send('reset')`. On a close,
the disconnect reason decides between a plain reset, clearing `auth` and then resetting, or
restarting the pairing flow in the same process. `GET /session/:key` lists the files of
`upload/<key>` with a download URL for each.

The model covers the decisions and state changes of that code:

- `AccessKey`: `formatNumber` and `generateAccessKey`, with the three random draws as inputs. It
  also has a parser for keys, used to prove round trips and injectivity.
- `Phone`: the `/pair` missing-phone guard, the removal of non-digits, and the registered and
  length checks of `getPairingCode`.
- `Disconnect`: the ordered close-reason table. The library's `DisconnectReason` constants are a
  record parameter, and they may coincide.
- `Disk`: an abstract filesystem, a map from each directory (`auth`, `upload`, `upload/<key>`) to
  its file names in listing order. A journal of completed operations (`remove`, `move`, `mkdir`,
  `process.send`) is replayed against it.
- `Handlers`: the operation sequence each handler completes (startup, `clearState`, the staging
  `mkdir`, the `open` hand-off, the close actions), with lemmas about the resulting disk and signals.
- `Listing`: the `/session/:key` response.
- `Lifecycle`: class `Host`, holding the disk and the journal. Its methods are the handlers, written
  step by step. Each one ties its new journal to the matching `Handlers` sequence. The invariant
  `Valid()` says that the disk is always the boot disk with the journal replayed on it. So the
  whole journal of a run, from startup on, accounts for the disk; the scenario
  `Lifecycle.StagedThenLoggedOut` reads its result off that journal.

Behaviour of the code worth noting, which the model follows:

- The two `sendMessage` confirmations (index.js:128-129) are awaited outside the `try` block. A
  failed confirmation therefore ends the handler before anything is moved, and no reset is sent.
- `getPairingCode` only creates `auth` when it is missing (index.js:94). It keeps files left in an
  existing `auth`. No step before a pairing attempt clears it. Only startup (index.js:37-42),
  `clearState` on a logout or bad session (index.js:44-46, 148) and the move on `open`
  (index.js:133) remove it.
- A `restartRequired` close calls `getPairingCode()` without a phone (index.js:151). An
  unregistered account then always fails the length check.
- A rejected `getPairingCode` returns before any event handler is subscribed (index.js:111). The
  `/pair` request then gets no JSON answer. An already-registered account never gets a code, and its
  request is left pending.
- Files are stored under `upload/` (index.js:48), but the listed URLs say `/uploads/` (index.js:80).
- When the destination was removed and the move then fails, the earlier contents of `upload/<key>`
  are gone. The staging folder is kept and no reset is sent.

## Model

| member | source | states |
|---|---|---|
| AccessKey.DecimalString | index.js:52 | `toString` of a non-negative integer is at least one digit, has no leading zero, and has one digit exactly below ten and at most two below 100 |
| AccessKey.PadStart | index.js:52 | `padStart` gives length max(\|s\|, width); the input is the suffix and every added character is the pad |
| AccessKey.FormatNumber | index.js:52 | the padded group is all digits, at least two long, and exactly two for numbers below 100 |
| AccessKey.GenerateAccessKey | index.js:51-59 | for draws in [0,100) the key has the shape `XSTRO_dd_dd_dd`: 14 characters, the prefix, digits in three pairs, `_` between them |
| AccessKey.JoinGroupsShape | index.js:58 | the template puts each two-character group at positions 6-7, 9-10 and 12-13, with `_` at 8 and 11 |
| AccessKey.ParseDecimalString | index.js:52 | the decimal text of a number, read back, is the number |
| AccessKey.FormatNumberRoundTrip | index.js:52 | each padded group, read as decimal, gives back its number |
| AccessKey.FormatNumberInjective | index.js:52 | different numbers give different groups |
| AccessKey.FormatNumberOfPair | index.js:52 | every two-digit group is the padded form of a number below 100 |
| AccessKey.KeyRoundTrip | index.js:51-58 | the three draws are parsed back out of the key they produce |
| AccessKey.KeyInjective | index.js:51-58 | different draws in [0,100) give different keys |
| AccessKey.KeyShapeIsGenerated | index.js:51-58 | every string of the key shape is the key of some draws in [0,100) |
| AccessKey.ExampleKey | index.js:58 | draws 7, 42, 19 give `XSTRO_07_42_19` |
| Phone.StripNonDigits | index.js:110 | the stripped number contains only 0-9 and is no longer than the input |
| Phone.NormalisePhone | index.js:110 | a missing or empty phone normalises to the empty string, and the result is all digits |
| Phone.StripAppend | index.js:110 | stripping distributes over concatenation, so digits keep their order |
| Phone.StripChar | index.js:110 | one character is kept exactly when it is a digit |
| Phone.StripKeepsDigits | index.js:110 | stripping leaves a string unchanged if and only if it is all digits |
| Phone.StripIdempotent | index.js:110 | stripping twice equals stripping once |
| Phone.StripLength | index.js:110 | the stripped length is the number of digits in the input |
| Phone.PunctuationDropped | index.js:110 | digits separated by non-digits strip to the digits joined in order |
| Phone.StartPairing | index.js:109-117 | a code is requested only for an all-digit number of at least 11 characters |
| Phone.StartPairingUnregistered | index.js:109-116 | unregistered: rejected with 'Enter Valid Phone Number' if and only if fewer than 11 digits remain, otherwise the code is requested for exactly the stripped number |
| Phone.FewDigitsRejected | index.js:109-111 | an input with fewer than 11 digits is rejected and never answered with a code |
| Phone.RestartWithoutPhone | index.js:151 | the restarted flow has no phone: rejected when unregistered, no code requested when registered |
| Phone.ShortNumberExample | index.js:110-111 | `"123"` is rejected |
| Phone.DigitsOnlyAccepted | index.js:110-116 | an all-digit number of at least 11 digits is requested unchanged |
| Phone.PairEndpoint | index.js:61-66 | `/pair` answers 'Provide Valid Phone Number' if and only if the phone is missing or empty |
| Phone.CodeOnlyForValidNumber | index.js:61-66 | `/pair` answers with a code if and only if a phone was given, the account is unregistered and at least 11 digits remain |
| Disconnect.ClassifyIsFirstMatch | index.js:143-154 | the if/else chain equals a first-match lookup over the ordered table reset, clear, restart, with reset as the default |
| Disconnect.ClassifyCases | index.js:145-154 | for each of the four actions, both directions: the reason is in that bucket and in no earlier one |
| Disconnect.NamedReasons | index.js:143-151 | each named constant gets its bucket's action unless an earlier bucket holds the same value |
| Disconnect.ResetUnlessRestart | index.js:145-154 | every reason except restartRequired signals reset |
| Disk.Apply | index.js:132-136 | remove deletes one directory, move puts the source's files at the destination and deletes the source, mkdir adds an empty directory, send leaves the disk alone; nothing else changes |
| Disk.ReplayConcat | index.js:131-137 | replaying two journals in sequence is replaying their concatenation |
| Disk.SignalsConcat | index.js:137 | the signals of a concatenated journal are the two signal lists concatenated |
| Handlers.StartupEffect | index.js:37-49 | startup leaves `upload` present with its files, leaves no `auth` unless its removal failed, changes no other directory and sends nothing |
| Handlers.ClearStateEffect | index.js:44-46 | clearState leaves no `auth`, no other directory changes, nothing is sent |
| Handlers.StagingEffect | index.js:94 | `auth` exists afterwards with any earlier files, nothing else changes, and repeating the step does nothing |
| Handlers.HandOffPersists | index.js:131-137 | a completed hand-off leaves `upload/<key>` with exactly the staged files, earlier contents dropped, no `auth`, nothing else changed, and exactly one `reset` |
| Handlers.HandOffFailureKeepsStaging | index.js:128-138 | a failed send, remove or move, or a missing `auth`, sends nothing and leaves `auth` as it was; only `upload/<key>` may change |
| Handlers.HandOffSignalFollowsMove | index.js:133-137 | every message the hand-off sends comes after the move of `auth` to `upload/<key>` |
| Handlers.CloseEffect | index.js:141-155 | reset and fallback send one reset and leave the disk alone; clear removes only `auth` and sends one reset; restart sends nothing and only ensures `auth` exists |
| Handlers.ClearPrecedesReset | index.js:147-149 | after a logout or bad session the reset comes after the removal of `auth` |
| Handlers.AtMostOneReset | index.js:121-156 | an `open` or `close` event sends at most one message |
| Listing.Entries | index.js:74-83 | one entry per file in listing order, named by the file, with url `protocol://host/uploads/<key>/<file>` |
| Listing.ListSession | index.js:68-89 | 404 'Folder not found' if and only if `upload/<key>` is absent; otherwise the key and one entry per file, in order, with its name and url `protocol://host/uploads/<key>/<file>` |
| Listing.FileUrlEndsWithName | index.js:80 | the URL is the fixed prefix for protocol, host and key followed by the file name |
| Listing.FileUrlInjective | index.js:80 | different files under one key get different URLs |
| Lifecycle.PersistThenList | index.js:70-83 | after a completed hand-off, `/session/<key>` lists exactly the staged files in order |
| Lifecycle.FailedHandOffNotListed | index.js:72 | after a failed hand-off to a new key, `/session/<key>` still answers 404 |
| Lifecycle.StagedThenLoggedOut | index.js:141-149 | startup, a pairing attempt that stages `auth` (index.js:37-49, 94), then a logout: the disk is the boot disk replayed with the whole journal, `auth` is gone, `upload` stays, and the journal's only message is one reset |
| Lifecycle.Host.Start | index.js:37-49 | the startup block: the journal is the startup sequence and the disk is its replay |
| Lifecycle.Host.Remove | index.js:45 | `removeSync`/`remove`: the directory is gone and the operation is journaled |
| Lifecycle.Host.Move | index.js:133-136 | `move` of an existing folder: the destination holds its files, the source is gone |
| Lifecycle.Host.MakeDir | index.js:49 | `mkdirSync` of a missing folder adds it empty |
| Lifecycle.Host.Signal | index.js:137 | `process.send` only appends to the journal |
| Lifecycle.Host.ClearState | index.js:44-46 | `auth` is removed and nothing else changes |
| Lifecycle.Host.EnsureStaging | index.js:94 | the journal grows by the staging sequence |
| Lifecycle.Host.GetPairingCode | index.js:91-117 | creates `auth` if missing, then proceeds as StartPairing says |
| Lifecycle.Host.Pair | index.js:61-66 | the answer is PairEndpoint's; with a missing phone, disk and journal are untouched, so the flow never starts |
| Lifecycle.Host.OnOpen | index.js:124-139 | the key is GenerateAccessKey of the draws, and the journal grows by the hand-off sequence |
| Lifecycle.Host.OnClose | index.js:141-155 | the action is Classify's, the journal grows by its close sequence, and a restart reports the restarted flow without a phone |
| Lifecycle.Host.OnUpdate | index.js:121-156 | `open` issues a key and hands off, `close` routes the reason, any other update changes nothing |

## Left out

- HTTP plumbing: the Express set-up, cache headers, CORS, static client files and `app.listen`
  (index.js:10-35, 165-167). Protocol and host are parameters of the listing.
- The messaging library: `makeWASocket`, `useMultiFileAuthState`/`saveCreds`,
  `fetchLatestBaileysVersion`, `requestPairingCode`, `sendMessage` and the `messages.upsert` no-op.
  Their outcomes are inputs: the registered flag, the pairing code and a send-success flag. The
  credential files the library writes into `auth` are not modelled as operations; they are
  whatever the disk holds.
- The extraction of the status code from `lastDisconnect` through `Boom` (index.js:142). The reason
  is an integer input, and the library's constant values are a parameter.
- `Math.random` (index.js:54-56). The three draws are parameters; the callers' draws lie in [0,100).
- The 3-second, 10-second and 2-second waits (index.js:113-116, 125, 130). They only affect timing.
- The promise and async structure: the re-throw in the executor (index.js:159-161), unhandled
  rejections, and concurrent `/pair` calls sharing `auth`. The model handles one event at a time.
- The effect of `process.send`: it is an appended journal message, not inter-process communication.
- Paths: `path.join` normalisation is not modelled. The directories are distinct values `auth`,
  `upload` and `upload/<key>`. A sub-folder appears as a key of its own, not as an entry of its
  parent's file list. Removing a directory leaves the `upload/<key>` entries under it in place,
  where a recursive `fs.remove` would delete them too. No handler removes `upload`, so nothing
  the model covers depends on this.
- Listing.ListSession: the model takes the key to be one name, not `.` or `..`, with no `/`, and
  answers 404 for any other key with no folder of its own. The handler checks none of this
  (index.js:69-72). Express decodes the path parameter, so `/session/%2e` joins to `upload` itself:
  the folder exists, and the answer is 200 listing every stored access key (index.js:76-83).
  `/session/%2e%2e` lists the application directory, and a key containing `%2F` reaches other
  directories outside `upload`.
- Failing filesystem calls are modelled as leaving nothing behind. A partly completed recursive
  remove or cross-device move is not modelled. A throwing `mkdirSync` at startup and a throwing
  `removeSync` inside clearState are not modelled either.
- Character classes: JavaScript's regular expression works on UTF-16 code units, and Dafny strings
  hold Unicode scalar values. Both remove every character outside 0-9, so the result is the same.
