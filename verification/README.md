# Verification of the git-ramus desktop host

A Dafny model of the parts of the desktop application that keep two stores in step, mediate
between plugins and the user, or decide the same language twice, with proofs about all inputs and all
runs.

- `ConfigOutput`, `IdentityConfig`, `IdentityResolver`: the values Git prints, identity profiles as
  the six managed keys, drift, and the resolver measured against Git's own precedence.
- `IdentityTransactions`: the identity service as a class over database rows and configuration.
  A fault schedule decides what each external call does; the contracts hold for every schedule.
  Repositories map to configuration files, because linked worktrees share one.
- `IdentityWork`, `IdentityInterleaving`, `IdentityRuns`: the same operations cut at every external
  call, any number of threads, the global lock before the repository lock, and their whole runs.
- `IdentityProgress`: one operation from its lock to its end, and when it can succeed.
- `CancellationLedger`, `PromptBrokers`, `PromptInvariants`, `BrokerObjects`: the bounded ledger of
  cancellations, and the gate shared by three prompt brokers.
- `NetworkFlows`, `NetworkRuns`, `NetworkApprovals`, `NetworkProgress`: clone, fetch, pull and push calls
  interleaved with answers and cancellations under a clock that does not go back, their whole runs, the
  approvals a command stands on, and what each step leads to.
- `Regex`, `ThemeLanguage`: regular expressions with derivatives, and the scanners of the host compared
  with the expressions of the contracts.
- `ThemeCatalog`, `ThemeActivation`: discovery of themes, and the serialised activation in the
  application.
- `PluginClient`, `RpcDispatch`: the plugin side of the message channel, and the permits around an
  authorising dispatch.
- `RemotePath`: the repository path and the scp-like remote summary.
- `Text`, `Wrappers`: shared text operations and result types.

Each module with state has functions that say what a call does, a class whose methods run the loops
of the source and are proved equal to those functions, and lemmas about whole runs of the functions.
`dafny verify dfyconfig.toml` checks everything.

## Where the code does less than it seems

- A bound profile that names no signing format does not keep a global `gpg.format` from Git: the
  local list is empty and Git falls through to the global scope (`BoundWithoutDrift` gives the exact
  condition, `BoundProfileDoesNotMaskGlobalFormat` a case).
- Linked worktrees are repositories of their own to the host and share one configuration file in Git.
  Binding one to a profile with other managed fields than the other's, or unbinding it, takes the
  other's configuration away without changing its row (`LinkedWorktreeTakesOver`). `BindKeepsAllIff`,
  `UnbindKeepsAllIff` and, for whole runs, `HarmonyIsGuarding` say exactly when that does not happen.
- The import checks that there is no profile and stores one later, and creating takes no lock, so as
  a service it can end beside a created profile (`ImportIsAloneIff`, with a run in
  `ImportBesideCreate`). Its only caller imports once at startup, before commands are taken, so in
  the application this does not occur.
- Manifests allow the host's own plugin name. A plugin that bears it keeps the usable row of its theme
  after it is gone (`HostNamedPluginLeavesRow`); `HostOwnsOnlyDefaultIff` and `CatalogAgreesWithRows`
  give the exact conditions.
- The two colour words are accepted in any letter case by the contract and in one by the host
  (`ColorsAgreeButForLetterCase`, with a word in `CapitalColorWord`).
- "a.git" and "a.git.git" are two repositories (`DoubledSuffixIsAnother`): a ".git" is no matter of
  spelling behind a path that has one (`SuffixAgreesIff`), and a second pass normalises such a path
  further (`NormalizeAgain`).
- A summary longer than 4096 characters is refused when it is summarised again
  (`SummaryIsIdempotent`, `LongestSourceIsNotStable`).
- A disposed plugin client still takes a theme that arrives under its last session (`LateMessages`); it
  relies on the transport to deliver nothing after `unsubscribe`.

## Model

| member | source | states |
|---|---|---|
| ConfigOutput.ParseInvertsEncode | apps/desktop/src-tauri/src/identity.rs:1582-1599 | parsing gives a list exactly when the bytes are that list, NUL-terminated value by value, for every list of printable values including none and empty ones: the two are inverse in both directions |
| ConfigOutput.UnterminatedIsRejected | apps/desktop/src-tauri/src/identity.rs:1582-1599 | non-empty output without a final NUL is refused, and no list prints to it |
| ConfigOutput.ReadOutcomeIff | apps/desktop/src-tauri/src/identity.rs:1147-1163 | a lookup yields a list exactly when the command succeeded and printed it, or answered exit code 1 with no output; every other failure is an error |
| ConfigOutput.LookupIsFaithful | apps/desktop/src-tauri/src/identity.rs:1147-1163 | what a lookup answers for a stored list, absent keys included, is read back as exactly that list |
| IdentityConfig.ValidationNormalises | apps/desktop/src-tauri/src/identity.rs:1226-1296 | an accepted profile input is trimmed and well formed, keeps the flags, and is left alone by validating it again |
| IdentityConfig.ValidationAcceptsIff | apps/desktop/src-tauri/src/identity.rs:1226-1296 | exactly the acceptable inputs are stored: texts that fit after trimming, an address, a known format, a key only with a format, signing only with both; every field is the trimmed one, format "none" and an empty key are left out |
| IdentityConfig.EmailShapeIff | apps/desktop/src-tauri/src/identity.rs:1226-1296 | the accepted addresses: one "@" between two names without outer dots, no blanks or controls |
| IdentityConfig.NoDriftIffCarries | apps/desktop/src-tauri/src/identity.rs:1383-1397 | a scope shows no drift exactly when every managed key has the profile's whole value list, in order |
| IdentityConfig.GlobalDriftIffDisagrees | apps/desktop/src-tauri/src/identity.rs:1399-1431 | the global comparison reports a key exactly when its meaning (last text, or boolean with absent as false) differs from the profile's |
| IdentityConfig.SpellingIsABool | apps/desktop/src-tauri/src/identity.rs:1298-1319 | the spelling written for a flag is read back as that flag by every boolean reader |
| IdentityResolver.NoProfileIsPlainGit | apps/desktop/src-tauri/src/identity.rs:747-854 | without any profile the resolver computes plain precedence (last local value, else last global value, as the host reads Git's last value) on all six keys, and fails exactly where that gives no usable identity |
| IdentityResolver.UnboundWithoutDriftIsPlainGit | apps/desktop/src-tauri/src/identity.rs:747-854 | unbound, under a global profile: whenever the resolver succeeds without drift, erasing the profile succeeds too and gives the same six values, which are plain Git's |
| IdentityResolver.DriftIff | apps/desktop/src-tauri/src/identity.rs:747-854 | exactly which keys drift: under a global profile those the repository leaves to a global scope that disagrees with it, with or without an override of others; bound, those whose whole lists are not the profile's; without a profile none |
| IdentityResolver.UnboundIsLayered | apps/desktop/src-tauri/src/identity.rs:772-843 | under a global profile, drift or not, the resolver succeeds exactly when Git with the profile as its global configuration has an identity, and gives its six values |
| IdentityResolver.BoundWithoutDrift | apps/desktop/src-tauri/src/identity.rs:747-854 | bound without drift: name, email and both flags are plain Git's; format and key are too exactly when an unset one does not meet a global value |
| IdentityResolver.BoundProfileDoesNotMaskGlobalFormat | apps/desktop/src-tauri/src/identity.rs:1441-1461 | a concrete drift-free bound profile whose identity is not plain Git's: an empty local list lets a global signing format through |
| IdentityResolver.CommitIdentityIsSafe | apps/desktop/src-tauri/src/identity.rs:856-908 | a commit identity never signs without a supported format and a key; a selected profile is used as it is; unbound and without one it is plain Git's; bound it is plain Git's but for format and key, wholly so when it signs anything, and exactly when what the profile leaves unset is not set globally |
| IdentityResolver.CommitResolvesIff | apps/desktop/src-tauri/src/identity.rs:856-908 | exactly when a commit gets an identity, for a selected profile, a bound and an unbound repository, which one, and exactly when it is refused for drift |
| IdentityResolver.ImportedFields | apps/desktop/src-tauri/src/identity.rs:963-1007 | what an import stores, field by field, in terms of the last global values |
| IdentityResolver.ImportHappensIff | apps/desktop/src-tauri/src/identity.rs:963-1007 | nothing is imported exactly without a name or an address; otherwise exactly acceptable values are, and format "none" with a key is refused |
| IdentityTransactions.LastValuesDecide | apps/desktop/src-tauri/src/identity.rs:1056-1097 | only the last value of each key decides what is imported |
| IdentityResolver.ImportIsWellFormed | apps/desktop/src-tauri/src/identity.rs:963-1007 | an imported profile is one validation would accept |
| IdentityResolver.ImportDriftFreeIff | apps/desktop/src-tauri/src/identity.rs:963-1007 | for a tidy snapshot, an imported profile has no drift exactly when a key implies a format and signing implies both |
| IdentityResolver.ImplicitSigningIsSurfaced | apps/desktop/src-tauri/src/identity.rs:963-1007 | every input that asks for signing without naming format and key is stored unsigned and reports drift |
| IdentityTransactions.RestoringUndoes | apps/desktop/src-tauri/src/identity.rs:1112-1119 | writing back a snapshot undoes any change confined to the managed keys of its scope |
| IdentityTransactions.MatchingProfileCarries | apps/desktop/src-tauri/src/identity.rs:1383-1397 | no drift against a faithful snapshot means the configuration itself carries the profile |
| IdentityTransactions.IdentityService.ReadValues | apps/desktop/src-tauri/src/identity.rs:1147-1163 | a read is faithful or fails |
| IdentityTransactions.IdentityService.WriteValues | apps/desktop/src-tauri/src/identity.rs:1165-1192 | unset and add touch one key of one scope, and leave exactly the wanted list when nothing fails |
| IdentityTransactions.IdentityService.ReadSnapshot | apps/desktop/src-tauri/src/identity.rs:1121-1127 | a snapshot has every managed key's whole list |
| IdentityTransactions.IdentityService.WriteSnapshot | apps/desktop/src-tauri/src/identity.rs:1129-1145 | success means every managed key was read back with exactly the wanted list, whatever the writes reported; unmanaged keys and other configuration files are untouched |
| IdentityTransactions.IdentityService.Restore | apps/desktop/src-tauri/src/identity.rs:1112-1119 | a successful restore gives back the configuration of the snapshot |
| IdentityTransactions.IdentityService.ApplySnapshot | apps/desktop/src-tauri/src/identity.rs:1099-1110 | applied completely, or rolled back completely, or reported as a failed rollback |
| IdentityTransactions.IdentityService.ApplyProfile | apps/desktop/src-tauri/src/identity.rs:1038-1046 | the same for a profile: on success the scope carries it |
| IdentityTransactions.IdentityService.CheckRepository | apps/desktop/src-tauri/src/identity.rs:681-692 | unknown and untrusted repositories are refused |
| IdentityTransactions.IdentityService.CheckBinding | apps/desktop/src-tauri/src/identity.rs:686-707 | under every fault schedule nothing passes but a registered and trusted repository, an existing profile and, if bound, an unchanged configuration; refusals come in order, before anything is written |
| IdentityTransactions.IdentityService.BindRepository | apps/desktop/src-tauri/src/identity.rs:681-713 | all or nothing under every fault schedule: the new row with the profile's exact configuration, or rows and configuration as before, or a reported failed rollback; success only on a registered, trusted repository whose configuration, if it was bound, was still its profile's; the other bound repositories keep theirs exactly when each that shares the file has the same managed fields; when nothing fails, each refusal exactly under its condition |
| IdentityTransactions.IdentityService.UnbindRepository | apps/desktop/src-tauri/src/identity.rs:715-745 | the same: the row gone and all six keys empty, or everything as before; a repository changed from outside is never unbound; the others keep their configuration exactly when none shares the file; when nothing fails, each refusal exactly under its condition |
| IdentityTransactions.BindReachesSharers | apps/desktop/src-tauri/src/identity.rs:439-444 | after a bind another repository is as before unless it shares the configuration file; then it has its profile exactly when that has the same managed fields |
| IdentityTransactions.BindKeepsAllIff | apps/desktop/src-tauri/src/identity.rs:681-713 | when every bound repository has its configuration, a bind keeps that exactly when nobody bound shares the file under other managed fields |
| IdentityTransactions.UnbindKeepsAllIff | apps/desktop/src-tauri/src/identity.rs:715-745 | an unbind keeps it exactly when nobody bound shares the file |
| IdentityTransactions.LinkedWorktreeTakesOver | apps/desktop/src-tauri/migrations/0002_git_client.sql:32 | a concrete pair: a main checkout and its linked worktree bound to two profiles, after which the checkout no longer has its own |
| IdentityTransactions.IdentityService.SetGlobal | apps/desktop/src-tauri/src/identity.rs:664-679 | the same for the global pointer and the global scope |
| IdentityTransactions.IdentityService.UpdateProfile | apps/desktop/src-tauri/src/identity.rs:609-648 | the same for an update: managed fields of a bound profile are refused, the current global profile is rewritten in Git before its row changes |
| IdentityTransactions.IdentityService.DeleteProfile | apps/desktop/src-tauri/src/identity.rs:650-658 | only an unbound profile that is not global disappears |
| IdentityTransactions.IdentityService.CreateProfile | apps/desktop/src-tauri/src/identity.rs:594-607 | a validated profile is added, or nothing changes |
| IdentityTransactions.IdentityService.ImportGlobalIfEmpty | apps/desktop/src-tauri/src/identity.rs:963-1036 | an import adds one profile and points at it, only when there was none, and never writes configuration |
| IdentityTransactions.IdentityService.DecideImport | apps/desktop/src-tauri/src/identity.rs:963-1007 | what is imported is decided from the last global values alone |
| IdentityTransactions.IdentityService.ReadEffectiveGlobal | apps/desktop/src-tauri/src/identity.rs:1056-1097 | the effective global snapshot has at most one value a key |
| IdentityInterleaving.NoDeadlock | apps/desktop/src-tauri/src/identity.rs:1215-1223 | with the locks taken global first, repository second, some thread can step while an operation is unfinished |
| IdentityInterleaving.NextMovesLocks | apps/desktop/src-tauri/src/identity.rs:1215-1223 | every step of every operation moves the two locks as its program point says |
| IdentityInterleaving.NextKeepsInv | apps/desktop/src-tauri/src/identity.rs:609-745 | every step of every thread, failing or scribbling calls included, keeps locks, rows and every configuration file in step with the last commit to it |
| IdentityRuns.RunKeepsInv | apps/desktop/src-tauri/src/identity.rs:609-745 | so does every run |
| IdentityRuns.EveryRunIsConsistent | apps/desktop/src-tauri/src/identity.rs:609-745 | at every point of every interleaving of bind, unbind, set_global, update, delete, import, create and foreign work: a file nobody is rewriting and no rollback broke holds what the last commit to it wrote, so a bound repository has its profile's configuration exactly when that is what was committed last; pointer and bindings name existing profiles; some thread can step while an operation is unfinished |
| IdentityRuns.HarmonyIsGuarding | apps/desktop/src-tauri/src/identity.rs:681-745 | from a state in which every bound repository's file was last written for its profile, a run stays in such states exactly when each bind and unbind commits under its guard: nobody bound shares the file, or, for a bind, only with the same managed fields |
| IdentityRuns.HarmonyCarries | apps/desktop/src-tauri/src/identity.rs:681-745 | in such a state every bound repository with a settled file has its profile's configuration |
| IdentityRuns.OperationsEnd | apps/desktop/src-tauri/src/identity.rs:594-745 | no run goes on for ever on the operations it has: in an endless one new operations keep arriving, whatever fails |
| IdentityRuns.ImportIsAloneIff | apps/desktop/src-tauri/src/identity.rs:963-1036 | in every run, an import that succeeds leaves exactly its own profile if and only if no create stored one since the import looked |
| IdentityRuns.ImportBesideCreate | apps/desktop/src-tauri/src/app_state.rs:74 | a run of the service in which a create comes between; the application's one import is over before it takes commands |
| IdentityRuns.CheckDecides | apps/desktop/src-tauri/src/identity.rs:697-707 | in every run, a bind or unbind of a bound repository that has read its configuration goes on to write exactly when the configuration is at that point its profile's |
| IdentityProgress.SucceedsIff | apps/desktop/src-tauri/src/identity.rs:594-745 | an operation, cut at every call, can succeed exactly when the rows and the configuration allow it; a bind or unbind of a repository changed from outside cannot, whatever its calls do |
| IdentityProgress.EndsLeave | apps/desktop/src-tauri/src/identity.rs:594-745 | what each end leaves, whatever the calls did: success the new rows with their configuration, failure everything as it was, a failed rollback the rows as they were and every other file untouched |
| IdentityProgress.Completes | apps/desktop/src-tauri/src/identity.rs:1129-1145 | from every point of an accepted operation the good calls lead to success |
| IdentityProgress.ServiceAccepts | apps/desktop/src-tauri/src/identity.rs:681-745 | the service, when nothing fails, accepts just the binds and unbinds that can succeed there |
| IdentityWork.CommitExpects | apps/desktop/src-tauri/src/identity.rs:700-713 | a commit changes what its own file is expected to hold to what was written there, and nothing else |
| IdentityWork.StoreKeepsRows | apps/desktop/src-tauri/migrations/0002_git_client.sql:91-97 | deletes, creations and updates without configuration keep the rows valid, given the foreign key that protects bound profiles |
| IdentityWork.RollingBackKeepsData | apps/desktop/src-tauri/src/identity.rs:1112-1119 | a rollback in progress, or completed, or failed keeps the invariant; only a failed one marks its file broken |
| IdentityWork.WritingKeepsData | apps/desktop/src-tauri/src/identity.rs:1129-1145 | a write loop in progress keeps every other file in step, whatever is scribbled |
| CancellationLedger.CancellationKeyIsInjective | apps/desktop/src/git-transport/promptBroker.ts:222-224 | the NUL-joined key determines plugin and operation when either kind is free of NUL |
| CancellationLedger.CancellationMap.PurgeCancellations | apps/desktop/src/git-transport/promptBroker.ts:226-232 | the loop that stops at the first young entry computes the purge |
| CancellationLedger.CancellationMap.Delete | apps/desktop/src/git-transport/promptBroker.ts:242 | deleting drops the entry of one key |
| CancellationLedger.CancellationMap.RememberCancellation | apps/desktop/src/git-transport/promptBroker.ts:234-249 | purge, re-insertion at the end and eviction together compute the specification |
| CancellationLedger.CancellationMap.CheckCanceled | apps/desktop/src/git-transport/promptBroker.ts:251-258 | a lookup purges and answers membership |
| CancellationLedger.EarlyStopIsFilter | apps/desktop/src/git-transport/promptBroker.ts:226-232 | on a sorted ledger the early stop keeps exactly the entries that are young enough |
| CancellationLedger.RememberShowsVisible | apps/desktop/src/git-transport/promptBroker.ts:234-249 | remembering keeps the ledger the visible tail of the list of all keys in order of last cancellation |
| CancellationLedger.RecencyTellsHistory | apps/desktop/src/git-transport/promptBroker.ts:234-249 | a key stands in that list at its last cancellation, followed by exactly the keys cancelled since |
| CancellationLedger.VisibleIffRemembered | apps/desktop/src/git-transport/promptBroker.ts:234-258 | visible means: cancelled at most ten minutes ago with fewer than 1024 other keys since |
| CancellationLedger.LedgerIsVisible | apps/desktop/src/git-transport/promptBroker.ts:226-258 | after any run of cancellations and lookups the ledger is that visible tail |
| CancellationLedger.LedgerIsExact | apps/desktop/src/git-transport/promptBroker.ts:226-258 | for every run under a clock that does not go back: a lookup finds a key exactly when its last cancellation is within ten minutes and fewer than 1024 other keys followed, and the ledger holds at most 1024 |
| CancellationLedger.RememberAddsOne | apps/desktop/src/git-transport/promptBroker.ts:234-249 | remembering one key makes no other key a cancelled one |
| PromptBrokers.ValidKeysAreInjective | apps/desktop/src/git-transport/promptBroker.ts:206-224 | accepted plugin names cannot contain the separator, so keys never collide |
| PromptBrokers.ParsedIsValid | apps/desktop/src/git-transport/promptBroker.ts:172-204 | an accepted request is still acceptable, and unchanged, after its label was trimmed |
| PromptBrokers.AcceptedIff | apps/desktop/src/git-transport/promptBroker.ts:172-224 | exactly which requests are accepted, part by part: name, identifier, kind with operation, and a label that is not blank |
| PromptBrokers.FetchIsAccepted | apps/desktop/src/git-transport/promptBroker.ts:172-224 | a concrete request of the ordinary kind is accepted |
| PromptInvariants.AdvanceTakesFreeGate | apps/desktop/src/git-transport/promptBroker.ts:55-62 | once the gate is free, handing on never refuses a queued prompt |
| PromptInvariants.SettleIsGood | apps/desktop/src/git-transport/promptBroker.ts:64-71 | settling keeps bounds, order, gate and ledger, and accounts for every promise once |
| PromptInvariants.ClearIsGood | apps/desktop/src/git-transport/promptBroker.ts:129-137 | so does clearing |
| PromptInvariants.MarkUnavailableIsGood | apps/desktop/src/git-transport/promptBroker.ts:138-142 | so does losing the dialog |
| PromptInvariants.CancelOperationPending | apps/desktop/src/git-transport/promptBroker.ts:143-164 | cancelling leaves pending exactly the other prompts and settles exactly the matching ones with no |
| PromptInvariants.CancelOperationIsGood | apps/desktop/src/git-transport/promptBroker.ts:143-164 | so does cancelling an operation, with the ledger it leaves |
| PromptInvariants.ConfirmIsGood | apps/desktop/src/git-transport/promptBroker.ts:84-113 | so does confirming, which creates at most one promise, of the next number |
| PromptInvariants.InvalidChangesNothing | apps/desktop/src/git-transport/promptBroker.ts:84-90 | an invalid request changes nothing and makes no promise |
| BrokerObjects.ProviderPromptGate.TryAcquire | apps/desktop/src/providers/promptBroker.ts:24-28 | the gate is taken exactly when it is free |
| BrokerObjects.ProviderPromptGate.ReleaseOwner | apps/desktop/src/providers/promptBroker.ts:30-32 | only the owner frees the gate |
| BrokerObjects.TransportPromptBroker.Activate | apps/desktop/src/git-transport/promptBroker.ts:48-53 | activation takes the gate or fails |
| BrokerObjects.TransportPromptBroker.AdvanceQueue | apps/desktop/src/git-transport/promptBroker.ts:55-62 | the loop over the queue computes the hand-off of the specification |
| BrokerObjects.TransportPromptBroker.SettlePrompt | apps/desktop/src/git-transport/promptBroker.ts:64-71 | answering the active prompt settles it and nothing else, keeps the others in order and the broker valid |
| BrokerObjects.TransportPromptBroker.ClearAll | apps/desktop/src/git-transport/promptBroker.ts:73-81 | every pending prompt is settled alike, in order, nothing is pending any more, and the gate is free if it was the broker's |
| BrokerObjects.TransportPromptBroker.UnavailablePrompt | apps/desktop/src/git-transport/promptBroker.ts:138-142 | losing the active prompt's dialog rejects every pending prompt as unavailable, in order, and frees the gate; losing another changes nothing; the broker stays valid |
| BrokerObjects.TransportPromptBroker.SpliceMatching | apps/desktop/src/git-transport/promptBroker.ts:148-155 | the backward splice loop removes the matching prompts and returns them, order kept |
| BrokerObjects.TransportPromptBroker.CancelTransportOperation | apps/desktop/src/git-transport/promptBroker.ts:143-164 | cancelling leaves pending exactly the prompts of other operations, in order, and answers its own with no; the broker stays valid |
| BrokerObjects.TransportPromptBroker.CheckOperationCanceled | apps/desktop/src/git-transport/promptBroker.ts:165-167 | the lookup and its purge |
| BrokerObjects.TransportPromptBroker.ConfirmRequest | apps/desktop/src/git-transport/promptBroker.ts:84-113 | a prompt joins the end of the pending ones exactly when its operation is not cancelled, there is room in total and for the plugin, and the gate is free or the broker's already; otherwise it is answered at once, with no if cancelled and as busy if not; the broker stays valid |
| NetworkFlows.ApplyKeepsInv | apps/desktop/src/lib/hostApi.ts:666-789 | every step of every flow, answer, cancellation and provider prompt keeps the invariant and takes back no fact |
| NetworkRuns.RunKeepsInv | apps/desktop/src/lib/hostApi.ts:666-789 | so does every run |
| NetworkFlows.CredentialKeepsInv | apps/desktop/src/providers/promptBroker.ts:55-77 | asking for and ending a credential prompt keep it that at most one prompt is shown over the three brokers and that it owns the gate |
| NetworkFlows.AccessKeepsInv | apps/desktop/src/providers/promptBroker.ts:55-77 | so do asking for and ending a repository access prompt |
| NetworkRuns.EveryRunIsBounded | apps/desktop/src/git-transport/promptBroker.ts:48-168 | in every run: at most one prompt shown over the three brokers and the gate held exactly by it, at most 16 pending and 4 a plugin, the active one the oldest, none of a remembered cancellation, nothing waiting without an active prompt |
| NetworkRuns.PromisesSettleOnce | apps/desktop/src/git-transport/promptBroker.ts:83-168 | in every run each promise is pending or settled, never both, and a settled outcome never changes |
| NetworkProgress.IssuesIff | apps/desktop/src/lib/hostApi.ts:666-782 | exactly which steps invoke a native command: the call is resumed, is not cancelled, and its one prompt was answered yes, or, for a clone, a valid directory was chosen after both |
| NetworkProgress.ResumingGoesOn | apps/desktop/src/lib/hostApi.ts:666-782 | every way a resumed call goes on: which prompt it asks for, for which plugin, operation and label, and what a yes, a no, a rejection, a cancellation and the picker lead to; nothing else moves |
| NetworkProgress.StartingBegins | apps/desktop/src/lib/hostApi.ts:666-782 | a call of a new number starts at its beginning; nothing else moves |
| NetworkProgress.FetchRunsThrough | apps/desktop/src/lib/hostApi.ts:743-782 | a well-formed fetch, pull or push that is not cancelled and finds nothing shown asks, is answered yes, and invokes its command |
| NetworkProgress.CloneRunsThrough | apps/desktop/src/lib/hostApi.ts:666-741 | so does a clone, with two prompts and a directory |
| NetworkProgress.ConfirmingPromises | apps/desktop/src/git-transport/promptBroker.ts:84-113 | a well-formed request that is not cancelled gets a promise of the next number, pending if there is room and else refused as busy; a cancelled one is answered no, an ill-formed one changes nothing |
| NetworkProgress.OtherConfirmPromises | apps/desktop/src/git-transport/promptBroker.ts:84-113 | the same for requests from elsewhere |
| NetworkProgress.AnswerSettles | apps/desktop/src/git-transport/promptBroker.ts:64-71 | answering the shown prompt settles its promise with the answer and only a yes approves it; answering another changes nothing |
| NetworkProgress.ClearingSettlesAll | apps/desktop/src/git-transport/promptBroker.ts:129-142 | dismissing answers every pending prompt with no, a lost dialog rejects them all as unavailable |
| NetworkProgress.CancellingSettlesIts | apps/desktop/src/git-transport/promptBroker.ts:143-164 | a cancellation is remembered, answers its own pending prompts with no and keeps the others in order |
| NetworkProgress.CredentialPromptShows | apps/desktop/src/providers/promptBroker.ts:55-77 | a credential prompt is shown exactly when nothing is, and ending it shows nothing |
| NetworkProgress.AccessPromptShows | apps/desktop/src/providers/promptBroker.ts:55-77 | so is a prompt for access to a repository |
| NetworkApprovals.CommandsAreApproved | apps/desktop/src/lib/hostApi.ts:666-782 | in every run, when a native command has been invoked, the user has answered yes to each prompt it needs while that prompt was shown: for a clone one about the source and then one about the network, otherwise one about the network, each for this plugin and operation; the later one was asked for only once the earlier was approved |
| NetworkApprovals.PromptsComeInTurn | apps/desktop/src/lib/hostApi.ts:666-782 | at no point of a run has a flow's later prompt been asked for and an earlier one not been approved |
| NetworkApprovals.ApprovalsAreNotShared | apps/desktop/src/lib/hostApi.ts:666-782 | two calls never stand on the same yes, not even for the same plugin and operation |
| NetworkApprovals.ApprovedWasAnswered | apps/desktop/src/git-transport/promptBroker.ts:123-125 | every approved prompt was answered yes at a point of the run at which it was the one shown |
| NetworkApprovals.OnlyAnswersApprove | apps/desktop/src/git-transport/promptBroker.ts:123-125 | only answering the shown prompt with yes approves it |
| NetworkRuns.CancellationStopsFlow | apps/desktop/src/lib/hostApi.ts:666-782 | while a cancellation is remembered the flow it names issues nothing: it returns null, or fails because its prompt or picker failed |
| NetworkRuns.NothingIssuedWhileCancelled | apps/desktop/src/lib/hostApi.ts:666-782 | at the very step that issues a command its operation is not cancelled |
| NetworkRuns.CancellationAnswersWaiting | apps/desktop/src/lib/hostApi.ts:783-789 | a cancellation settles the waiting flow's prompt with no at once and is remembered |
| NetworkFlows.EffectMovesPromises | apps/desktop/src/git-transport/promptBroker.ts:64-164 | a call moves each promise at most once, from pending to settled |
| Regex.AcceptsIsSound | packages/contracts/src/theme.ts:3-46 | following derivatives decides exactly the language of an anchored expression |
| ThemeLanguage.IsThemeId | apps/desktop/src-tauri/src/themes.rs:634-651 | the two-flag scan accepts exactly the language of the contract's expression |
| ThemeLanguage.ScanFollowsExpression | packages/contracts/src/theme.ts:3 | each pair of flags stands for one residual of the expression |
| ThemeLanguage.HostSafetyIsContractSafety | apps/desktop/src-tauri/src/themes.rs:621-632 | every text the host finds safe the contract finds safe |
| ThemeLanguage.SafetyAgreesWithoutBlanks | packages/contracts/src/theme.ts:4 | without blanks and control characters the two safety tests are one |
| ThemeLanguage.NumberMatches | packages/contracts/src/theme.ts:24 | the texts the host parses as numbers are exactly those of the contract's expression |
| ThemeLanguage.ContractReadsTheRun | packages/contracts/src/theme.ts:20-46 | the contract's two expressions together read the leading number and what follows it |
| ThemeLanguage.LengthsAgree | apps/desktop/src-tauri/src/themes.rs:546-580 | host and contract accept the same lengths, numbers and texts, for all bounds and sign rules and any value of a decimal text |
| ThemeLanguage.DurationsAgree | apps/desktop/src-tauri/src/themes.rs:582-607 | host and contract accept the same durations |
| ThemeLanguage.ColorsAgreeButForLetterCase | apps/desktop/src-tauri/src/themes.rs:609-619 | host and contract accept the same colours except that the contract takes the two colour words in any letter case |
| ThemeLanguage.CapitalColorWord | packages/contracts/src/theme.ts:11-16 | "TRANSPARENT" is a colour to the contract and none to the host |
| ThemeCatalog.ListedAreTheWinners | apps/desktop/src-tauri/src/themes.rs:259-294 | first valid wins: what the loop lists is the host's theme and, per identifier, the theme of the first plugin with a sound one |
| ThemeCatalog.CatalogIsTheWinners | apps/desktop/src-tauri/src/themes.rs:259-295 | the catalogue has the default first, the rest sorted without repetition, and is exactly the winners |
| ThemeCatalog.UsableRows | apps/desktop/src-tauri/src/themes.rs:243-294 | which rows are usable after discovery, for any earlier rows and plugin order; no row is removed |
| ThemeCatalog.CatalogAgreesWithRows | apps/desktop/src-tauri/src/themes.rs:243-294 | catalogue and usable rows agree on an identifier exactly when no usable row the host owned under it was left uncontributed; every listed theme has its row |
| ThemeCatalog.RowOwner | apps/desktop/src-tauri/src/themes.rs:243-294 | the whole row of every theme but the default after discovery: that of the last plugin that wrote it, usable or with the reason it is not, else the one before, stale unless it is the host's |
| ThemeCatalog.HostOwnsOnlyDefaultIff | apps/desktop/src-tauri/src/themes.rs:669-683 | discovery leaves the default the only host-owned row exactly when no plugin of the host's name is the last to write a row and every other host-owned row is contributed by someone |
| ThemeCatalog.HostNamedPluginLeavesRow | apps/desktop/src-tauri/src/plugins/manifest.rs:256-273 | a concrete case: a plugin of the host's name, which manifests allow, leaves a usable row that the catalogue does not list |
| ThemeCatalog.SortSorts | apps/desktop/src-tauri/src/themes.rs:295 | sorting by identifier orders and loses nothing |
| ThemeCatalog.ThemeManager.Discover | apps/desktop/src-tauri/src/themes.rs:242-304 | the loop leaves exactly the specified catalogue and rows and repairs the active theme |
| ThemeCatalog.ThemeManager.Current | apps/desktop/src-tauri/src/themes.rs:313-325 | the current theme is the active one when listed, else the default, which becomes active |
| ThemeCatalog.ThemeManager.Activate | apps/desktop/src-tauri/src/themes.rs:327-334 | activating selects the theme, or the default for an unknown identifier, and persists it |
| ThemeCatalog.SelectionIsStable | apps/desktop/src-tauri/src/themes.rs:313-340 | reading back what was activated or repaired selects the same theme |
| PluginClient.PluginClient.ReceiveInit | packages/plugin-sdk/src/client.ts:72-84 | a session that is not the current one takes its place and is announced; every unanswered call is rejected and no other touched, the table is empty and the theme gone; the client stays valid |
| PluginClient.PluginClient.ReceiveResult | packages/plugin-sdk/src/client.ts:100-105 | a result answers the call sent with its identifier under its session, if it still waits, and touches no other; the client stays valid |
| PluginClient.PluginClient.RejectAllPending | packages/plugin-sdk/src/client.ts:66-69 | the loop settles every entry in order |
| PluginClient.PluginClient.DisposeClient | packages/plugin-sdk/src/client.ts:139-149 | every unanswered call ends as disposed, no other is touched, and nothing is pending; the client stays valid |
| PluginClient.RejectingSettlesAll | packages/plugin-sdk/src/client.ts:66-69 | rejecting the table settles every unanswered request, once, and no other |
| PluginClient.InitReplaces | packages/plugin-sdk/src/client.ts:72-84 | replacing the session rejects exactly the unanswered requests |
| PluginClient.ResultKeepsInv | packages/plugin-sdk/src/client.ts:100-105 | a result settles exactly the call sent with its identifier under its session |
| PluginClient.DisposeKeepsInv | packages/plugin-sdk/src/client.ts:139-149 | disposal rejects exactly the unanswered requests |
| PluginClient.EveryRunIsSound | packages/plugin-sdk/src/client.ts:50-151 | in every run with fresh identifiers the table is the set of unanswered requests of the current session, and no call is settled twice |
| PluginClient.CallsAreSent | packages/plugin-sdk/src/client.ts:120-138 | a call on a live client with a session is sent under it, once, and awaits its result; before the first session it waits and nothing is sent; on a disposed client it is rejected; nothing else moves |
| PluginClient.PluginClient.StartRequest | packages/plugin-sdk/src/client.ts:120-138 | the same of the method, with its fresh identifier; the client stays valid |
| PluginClient.PluginClient.ResumeRequest | packages/plugin-sdk/src/client.ts:122-138 | the same once readiness is decided; a live client then has a session |
| PluginClient.IssueKeepsInv | packages/plugin-sdk/src/client.ts:126-136 | sending a call under a fresh identifier keeps the table the set of unanswered calls of the session |
| PluginClient.OnlyDisposalDisposes | packages/plugin-sdk/src/client.ts:120-149 | in every run a call ends as disposed only after the client was disposed |
| PluginClient.FirstEndingDecides | packages/plugin-sdk/src/client.ts:66-149 | in every run a call that was sent ends with the first event that ends it, in its way: its result, another session, or disposal; as long as there is none it waits |
| PluginClient.OutcomesAreFinal | packages/plugin-sdk/src/client.ts:50-159 | a settled call keeps its outcome |
| PluginClient.AnswersMatchRequests | packages/plugin-sdk/src/client.ts:100-138 | whatever answers a call arrived, while it was pending, under the session and identifier it was sent with |
| PluginClient.DisposalIsFinal | packages/plugin-sdk/src/client.ts:120-149 | after disposal nothing is pending, sent or accepted in any run, and later calls end as disposed |
| PluginClient.LateMessages | packages/plugin-sdk/src/client.ts:71-106 | should messages arrive after disposal all the same, sessions and results do nothing, while a theme is taken exactly when it parses and names the last session |
| PluginClient.ThemeIsTakenIff | packages/plugin-sdk/src/client.ts:85-99 | a theme that parses is taken at once exactly when it names the session in force |
| PluginClient.ThemesFollowSessions | packages/plugin-sdk/src/client.ts:72-99 | whenever there is a theme, the session in force announced it, and neither session nor theme has changed since; none survives its session, even if one of that name comes back |
| RpcDispatch.PluginRpcConcurrencyLimiter.TryAcquire | apps/desktop/src/plugins/rpcRouter.ts:633-639 | a permit is given exactly below the limit |
| RpcDispatch.Permit.Release | apps/desktop/src/plugins/rpcRouter.ts:637-644 | the first release gives the permit back, a second does nothing |
| RpcDispatch.ReturningUndoesAcquiring | apps/desktop/src/plugins/rpcRouter.ts:633-647 | returning undoes acquiring, whatever other plugins hold |
| RpcDispatch.RequirementIsAllowed | apps/desktop/src/plugins/rpcRouter.ts:709-739 | the loops over resources decide exactly the all/any condition, over the answers they ask for |
| RpcDispatch.DispatchPluginRpc | apps/desktop/src/plugins/rpcRouter.ts:654-707 | the handler runs exactly when a permit was free and every requirement is satisfied; each outcome has exactly its reason; every exit returns the permit |
| RpcDispatch.ApplyKeepsInv | apps/desktop/src/plugins/rpcRouter.ts:654-707 | every step of interleaved dispatches keeps counts, permits and grants |
| RpcDispatch.PermitsCountFlights | apps/desktop/src/plugins/rpcRouter.ts:628-647 | in every run the stored count is the number of network dispatches in flight, 1 to 4 when stored |
| RpcDispatch.PermitsAllReturn | apps/desktop/src/plugins/rpcRouter.ts:704-706 | when every dispatch is over no count is left |
| RpcDispatch.LimitIsExact | apps/desktop/src/plugins/rpcRouter.ts:685-689 | a dispatch is turned away exactly when four of the same plugin are in flight |
| RpcDispatch.PluginsAreIndependent | apps/desktop/src/plugins/rpcRouter.ts:628-647 | a step touches one dispatch and its plugin's permits only; releasing again touches nothing |
| RpcDispatch.HandlersAreAuthorized | apps/desktop/src/plugins/rpcRouter.ts:690-703 | a handler ran only if every requirement was granted, and a denial names a requirement the answers refuse |
| RpcDispatch.OutcomesAreEarned | apps/desktop/src/plugins/rpcRouter.ts:654-707 | in every run each dispatch ends for its reason: refused by the answers given, failed because an answer or the handler threw, returned because the handler did, turned away by the limit, or never prepared |
| RpcDispatch.StepsGoOn | apps/desktop/src/plugins/rpcRouter.ts:681-739 | what each start, answer and handler end leads to: the first open question, the next one, the handler, a denial or the end |
| RpcDispatch.GrantsWereGiven | apps/desktop/src/plugins/rpcRouter.ts:709-739 | every recorded answer is one the host gave to the question that was open |
| ThemeActivation.AppState.ActivateTheme | apps/desktop/src/App.tsx:134-138 | a request joins the end of the tail, pending, as the only current activation: all earlier ones are superseded, and what is shown does not change |
| ThemeActivation.AppState.HostAnswers | apps/desktop/src/App.tsx:143-151 | the host's theme becomes the one it answers with; an accepted theme is shown exactly by the current activation, which ends; a refused current one is read back next; a superseded one changes nothing shown |
| ThemeActivation.AppState.HostReadsBack | apps/desktop/src/App.tsx:148-158 | the theme read back is shown exactly by the current activation, which ends either way |
| ThemeActivation.AppState.ClearPending | apps/desktop/src/App.tsx:159-164 | the pending flag is cleared by the current generation only |
| ThemeActivation.ApplyKeepsInv | apps/desktop/src/App.tsx:134-170 | every step keeps runs serial, generations ordered and the shown theme accounted for |
| ThemeActivation.OneHostCallAtATime | apps/desktop/src/App.tsx:140-167 | at most one run talks to the host at any time |
| ThemeActivation.SupersededIsNeverShown | apps/desktop/src/App.tsx:143-164 | what is shown changes only by the newest activation's answer |
| ThemeActivation.DrainedIsConsistent | apps/desktop/src/App.tsx:134-170 | in every run of a mounted component something is pending exactly while the tail has not drained, and once it has, the shown theme is the host's unless the last activation and its read both failed |
| ThemeActivation.HostIsLastReply | apps/desktop/src/App.tsx:143-151 | in every run the host's theme is the one it last answered with |
| ThemeActivation.DrainedShowsReply | apps/desktop/src/App.tsx:134-170 | when the tail of a mounted component has drained, the last answer was to the last activation: an accepted theme is shown, and after a refusal the theme the host has, unless reading it back failed |
| ThemeActivation.TailDrains | apps/desktop/src/App.tsx:140-167 | every answer brings the tail closer to its end |
| ThemeActivation.TailNeverSticks | apps/desktop/src/App.tsx:167 | until then some run waits for an answer or can start |
| RemotePath.NormalizeRenderedPath | apps/desktop/src/lib/hostApi.ts:1184-1210 | an accepted path rendered with ".git" normalises to itself |
| RemotePath.NormalizeIff | apps/desktop/src/lib/hostApi.ts:1184-1210 | exactly which texts normalise to a path: the safe path between any slashes, with ".git" or, if it does not end so itself, without |
| RemotePath.SafePathIff | apps/desktop/src/lib/hostApi.ts:1187-1210 | exactly which paths are safe, escapes in either letter case and every component included |
| RemotePath.OuterSlashesAgree | apps/desktop/src/lib/hostApi.ts:1184-1186 | slashes around any text make no difference |
| RemotePath.SuffixAgreesIff | apps/desktop/src/lib/hostApi.ts:1184-1210 | behind a path without outer slashes a ".git" makes no difference exactly when the path does not end in one or is refused with and without it |
| RemotePath.SpellingsAgree | apps/desktop/src/lib/hostApi.ts:1184-1210 | both together: outer slashes never matter, one ".git" does not matter behind a path that has none |
| RemotePath.DoubledSuffixIsAnother | apps/desktop/src/lib/hostApi.ts:1184-1186 | "a.git" and "a.git.git" normalise to different paths, the second to the text of the first |
| RemotePath.ComponentsAreSafe | apps/desktop/src/lib/hostApi.ts:1197-1206 | every component of an accepted path is non-empty, not "." or "..", and free of controls |
| RemotePath.SafePathIsBare | apps/desktop/src/lib/hostApi.ts:1197-1206 | an accepted path has no outer or doubled slash |
| RemotePath.NormalizeAgain | apps/desktop/src/lib/hostApi.ts:1184-1210 | normalising twice changes nothing exactly when the path does not still end in ".git" |
| RemotePath.SummaryOfSource | apps/desktop/src/lib/hostApi.ts:1142-1181 | a source that fits and its ".git" spelling have one summary |
| RemotePath.SummaryIff | apps/desktop/src/lib/hostApi.ts:1142-1181 | exactly which texts are summarised without the URL parser, and how |
| RemotePath.SummaryIsIdempotent | apps/desktop/src/lib/hostApi.ts:1142-1181 | summarising a summary gives it back exactly when it is at most 4096 characters |
| RemotePath.LongestSourceIsNotStable | apps/desktop/src/lib/hostApi.ts:1100-1111 | a concrete source whose summary is refused |

## Left out

- IdentityTransactions.IdentityService.ReadValues: a readback that differs spuriously is modelled as a failed one, because its only caller treats the two alike.
- IdentityTransactions.IdentityService.BindRepository: locks are not part of the class; interleavings are the subject of `IdentityInterleaving`, and lock poisoning is not modelled. Which file a repository's local configuration is stays fixed.
- IdentityRuns.EveryRunIsConsistent: excludes configuration edits from outside and says nothing of a file whose rollback failed; the lock-free reads of the resolver racing with writers are not modelled, since the code promises nothing there.
- IdentityResolver.CommitIdentityIsSafe: finding the signing program and testing that it can be executed are platform calls outside the model.
- ThemeLanguage.LengthsAgree: bounds and the factor of a duration are exact reals, so rounding of the comparison values is not modelled; which number a decimal text denotes is a parameter.
- ThemeLanguage.HostSafetyIsContractSafety: holds over ASCII text; outside it the two notions of blank differ on a few characters, and the contract's case folding also takes U+017F for an "s", which the host's does not.
- ThemeCatalog.ThemeManager.Discover: database calls other than the missing settings row succeed; names and densities of themes are not part of a record; reading and validating a definition file is one outcome of the descriptor.
- PluginClient.EveryRunIsSound: assumes fresh identifiers and a transport that delivers nothing after it was told to stop and whose `send` does not throw; theme listeners and applying a theme to the document are outside.
- ThemeActivation.DrainedIsConsistent: host events and the first load are outside the model; a component that was left does not come back, except before its first activation.
- RemotePath.SummaryIsIdempotent: the branch that uses the platform's URL parser is outside the model, and what that parser makes of a host is a parameter assumed idempotent.
- BrokerObjects.TransportPromptBroker.ConfirmRequest: listeners, which might call back, are outside the model, and so are requests of a wrong shape.
- NetworkApprovals.CommandsAreApproved: labels, caches, request schemas and the native command's own result are outside the model; the contracts accept an upper-case operation identifier that the broker does not, so cancelling one is ignored there and confirming one is refused.
- Text is ASCII: no Unicode case folding, normalisation or encoding; whether bytes are UTF-8 is a parameter.
- Timestamps, random identifiers and log text.
- The elevation and font-family checks of a theme: character-class tests without structure.
- React views and dialogs, Tauri forwarding, contract schemas of plain fields, fixtures and launchers.
- The transport service, clone registry, job service, permission gateway and provider service, whose sources decide their own behaviour.
