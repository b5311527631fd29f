# Verified models of kata's command-line protocols

This project models the parts of kata that change files, share state or rewrite
other tools' configuration, and proves what they are for. Each module follows one
source file or one component of it.

- **Publication** publishes a bundle of files against their preimages and rolls it
  back on failure. The disk is a map from path to contents and mode; before every
  step of ours, others may have changed any of it, and any rename or remove may
  fail. One check together with the replacement it guards is one step, as the
  source concedes at `cmd/kata/agent_hooks_native.go:177`. The methods write a log
  of events, and the theorems speak about every log they can produce. What fails of
  itself is counted, so that a result can only be blamed on a failure that was one.
- **LineDiff** and **EditDocument** are the bounded diff and the buffer format of
  `kata cron edit`; **CronEdit** is its save loop against a server that accepts a
  write only at the expected event, with an editor that may save anything and
  answers that may be lost.
- **Attention** is session ownership by compare-and-set: any number of native and
  legacy starts and ends, interleaved with other writers, where a write reported
  as failed may have landed. The four retry loops are methods over a daemon that
  others change between any two requests; the system of all calls is a transition
  system whose calls make the requests of those methods.
- **Json**, **LosslessJson**, **HookKinds**, **HookPlan**, **HookEntries** and
  **HookMasking** are the lossless rewriting of a parsed configuration, the
  recognition of Kata's own handlers, their reconciliation among foreign ones, what
  that makes of groups and settings, and the hiding of command strings from a
  planner that only sees substrings. **HookDocument** puts reading, planning and
  rewriting together, from the text of a configuration file to its new text;
  **HookUninstall** is an input for which the new text is no JSON, and **HookReplan**
  reads a planned configuration back and plans it again.
- **Jsonc**, **JsonMachine** and **PluginConfig** edit an authored configuration
  with comments and trailing commas by byte offsets. **JsoncComments** says what
  becomes of comments and trailing commas, **PluginAddition**, **PluginRemoval** and
  **PropertyRemoval** what an edit of any configuration changes and what it leaves,
  read by quotes and brackets alone (**PluginItems**), and **PluginRoundTrip** that
  removing undoes adding. **PluginEdits**, **PluginCuts** and **JsoncCuts** help.
- **MarkedLines**, **Instructions** and **InstructionFiles** are marker lines, the
  text blocks they delimit and the set of files that holds such blocks.
- **Service** is the life cycle of the embedded service, **RunErrors** its policy
  on error trees and the fence recorder.
- **ShellWords** is the tokenizer for stored commands in its POSIX mode,
  **SealedCode** the digest that generated code carries, **LogFollower** the
  one-shot reading and following of a growing log.
- **Options** and **Decimal** hold an option type and decimal numerals.

Text is a sequence of characters that stand for bytes. `dafny verify
dfyconfig.toml` checks the whole project.

Some properties hold only under a condition. In these places the exact condition
is proved rather than assumed:

- A rewritten JSON document reads back as the new value if and only if no null
  stands in the new value where the original had nothing
  (`LosslessJson.DocumentReads`): a missing value and a null compare equal, and an
  equal value is written as the original's bytes, of which there are none. An array
  item that differs from all old items counts as new with everything in it.
- So the file that planning hooks writes reads back as what was planned if and only
  if no null is left in an entry that loses one of Kata's handlers and keeps
  another handler, unless the event already held that very entry
  (`HookDocument.PlannedReads`). Where one is left the file is not even JSON:
  uninstalling from a group with the matcher null, which the planner accepts as
  matching anything, writes that matcher as no bytes, foreign handler, group and all
  (`HookUninstall.MixedGroupLosesNull`, at concrete handlers
  `HookUninstall.UninstallLosesNull`).
- In a rewritten JSON document the text of an unchanged subtree survives whatever
  changes in the objects around it. Below a changed array it survives if and only
  if the whole item occurs in the old array and the first such item carries the
  same text there, or nothing but bare brackets is written
  (`LosslessJson.UnchangedSubtreeKeepsItsText`): items are matched by value, and
  an item that matches none is written anew. Changing one field of an object in an
  array therefore loses the authored escapes of the field beside it
  (`LosslessJson.TextBesideAChangeIsLost`).
- A handler that Kata generates is recognized as Kata's own if and only if its
  executable is named by a path or is called `kata` or `kata.exe`
  (`HookKinds.GeneratorAgrees`). For any other executable every new installation
  adds the handlers once more (`HookPlan.UnrecognizedPlanRepeats`, shown for a
  program called `hooks` in `HookPlan.RenamedPlanRepeats`), behind the foreign ones
  (`HookPlan.PlanForeign`); otherwise installation is idempotent. The command's own
  resolver yields only paths and recognized names
  (`cmd/kata/agent_hooks_executable.go:28-66`), and a project installation uses
  `kata`, so such an executable can reach the planner only from another caller.
- The planned value keeps the foreign handlers of every event as they are, in
  order, if and only if it writes none by an executable that is not recognized; no
  removal writes any (`HookPlan.PlanKeepsForeign`). Whether the written file still
  holds that value is the condition above.
- Planning a planned file leaves it as it is, byte for byte, under the condition
  that what was written is recognized (`HookReplan.PlannedFileStays`).
- An edit buffer gives its body back if and only if the body does not begin with
  "//" (`EditDocument.BufferRoundTrip`); what is left of any file is such a body.
- Uninstalling an instruction block gives the file back, and installing twice is
  installing once, if and only if the file did not end in a bare carriage return
  (`Instructions.UninstallUndoesInstall`, `Instructions.InstallIsIdempotent`).
- The log follower consumes complete lines if and only if the first snapshot
  ended on a newline (`LogFollower.Tail`).

## Model

| member | source | states |
|---|---|---|
| LineDiff.CronLineDiff | cmd/kata/cron_edit_document.go:119-171 | the shown lines are the bounded display of the changes of the trimmed script: the LCS walk within the budget, else all removals before all additions |
| LineDiff.ScriptRelates | cmd/kata/cron_edit_document.go:119-166 | in both branches "-" lines and kept lines spell the first text, "+" lines and the same kept lines the second |
| LineDiff.DiffIsMinimal | cmd/kata/cron_edit_document.go:119-166 | in the table branch the number of changes is the two lengths less twice the LCS of the untrimmed texts, and no script between the texts has fewer |
| LineDiff.TrimKeepsLcs | cmd/kata/cron_edit_document.go:120-125 | trimming the common prefix and suffix keeps the LCS: it is the trimmed ends plus the LCS of the middles |
| LineDiff.ScriptBound | cmd/kata/cron_edit_document.go:119-166 | any script between two texts changes at least as many lines as the lengths less twice the LCS |
| LineDiff.TrimEnds | cmd/kata/cron_edit_document.go:120-125 | the two trimming loops leave the maximal-prefix, maximal-suffix remainder |
| LineDiff.FillTable | cmd/kata/cron_edit_document.go:143-153 | filled backwards, every cell of the flat table holds the LCS of the two suffixes it stands for |
| LineDiff.AtIsProduct | cmd/kata/cron_edit_document.go:143-153 | the cell that the row-by-row model uses is the one at index row times width plus column |
| LineDiff.WalkTable | cmd/kata/cron_edit_document.go:154-165 | the loop over the flat table lists exactly the changes of the greedy walk over suffix LCS values |
| LineDiff.WalkCount | cmd/kata/cron_edit_document.go:154-165 | the greedy walk changes as few lines as the LCS of the remaining suffixes allows |
| LineDiff.TableWithinBudget | cmd/kata/cron_edit_document.go:134-144 | when the listing is not used, the table has at most 250000 cells |
| LineDiff.EmptyExactlyWhenEqual | cmd/kata/cron_edit_document.go:119-171 | nothing is shown exactly when the texts are equal |
| LineDiff.DisplayIsBounded | cmd/kata/cron_edit_document.go:126-170 | at most 80 lines are shown, none of more than 384 bytes unless 10 to the power of 340 changes are counted, and the last one counts exactly those left out |
| LineDiff.DisplayTells | cmd/kata/cron_edit_document.go:119-171 | when nothing is cut off or shortened, the first text is its shown "- " lines and the second its shown "+ " lines, each in order, put together with the same lines that both share |
| EditDocument.CronEditSplit | cmd/kata/cron_edit_document.go:73-85 | the loop strips the leading comment lines and reports whether one of them is the CONFLICT line |
| EditDocument.SplitLeavesNoComment | cmd/kata/cron_edit_document.go:73-85 | the body never begins with a comment |
| EditDocument.SplitKeepsTheTail | cmd/kata/cron_edit_document.go:73-85 | the body is the end of the file, byte for byte |
| EditDocument.CronEditBuffer | cmd/kata/cron_edit_document.go:87-100 | the growing buffer is the header lines that fit in 32 KiB, each a comment, then the body |
| EditDocument.HeaderSaysAll | cmd/kata/cron_edit_document.go:87-100 | a header that fits in 32 KiB has every line of every note, in order, below its own two lines |
| EditDocument.BufferRoundTrip | cmd/kata/cron_edit_document.go:73-100 | splitting a buffer gives its body back if and only if that does not begin with a comment, otherwise what splitting the body leaves; it finds the mark exactly if a header line or the body has one, and the header has at most 32 KiB |
| EditDocument.ConflictIsShown | cmd/kata/cron_edit_document.go:73-100 | a buffer reopened after a conflict carries the CONFLICT line whatever notes and body follow, and one without notes only if the body has it |
| EditDocument.ConflictShowsTheDiff | cmd/kata/cron_edit_document.go:87-171 | the header written after a conflict always fits: below its own two lines it has the notice and every line of the diff |
| CronEdit.World.Send | cmd/kata/cron_edit.go:252-285 | a PUT takes effect only while its expected event is current; a confirmed one did, a conflict or refusal did not, and a lost answer leaves it open; a lost or undecodable answer is a counted failure, and nobody meets a conflict where nobody else writes |
| CronEdit.OpenEditor | cmd/kata/cron_edit.go:126-149 | one visit to the editor ends the run or yields the saved draft, and never goes on past an unacknowledged CONFLICT line; it ends with an error only if something failed, that line was kept or the draft was saved as it had been reopened under an error |
| CronEdit.Submit | cmd/kata/cron_edit.go:150-179 | one submission extends a justified run by a justified PUT, which changes the revision it was prepared against, the newest one shown, and classifies its answer; it stops with nothing to save only if the draft changes nothing in that revision, with an error only if something failed, and reopens the draft as invalid only if it is or the server rejected it |
| CronEdit.FindCurrent | cmd/kata/cron_edit.go:184-203 | after a conflict the run stops, succeeds without a write only if another revision, the attached one if there is one, has the content that was sent, or goes on from a revision that was current |
| CronEdit.ShowConflict | cmd/kata/cron_edit.go:204-217 | the draft is reopened, unchanged, under the CONFLICT line and the diff from the normalized body of the revision the refused PUT expected to that of the current one |
| CronEdit.EditLoop | cmd/kata/cron_edit.go:123-219 | every note of the run is justified by the ones before it, the draft file keeps the user's last draft, and the result is exact: saved means confirmed or already there at another revision, neither saved nor failed means a draft that is blank or changes nothing in the newest revision shown, and an error means that something failed, the CONFLICT line was kept, a draft reopened under an error was saved unchanged, the revision met was deleted or not valid, or the editor could not be started again |
| CronEdit.Edit | cmd/kata/cron_edit.go:73-219 | the same for the whole command, from reading the opening revision on |
| CronEdit.ValidDraftIsSent | cmd/kata/cron_edit.go:126-179 | in a run in which nothing failed, a last draft that is not blank, is valid and differs from the newest revision shown is sent against that revision, unless its CONFLICT line was kept or it only repeats a reopened draft |
| CronEdit.ValidDraftIsSaved | cmd/kata/cron_edit.go:73-219 | if, besides, nobody else writes and the server rejects nothing, the run has saved that draft over the opening revision |
| CronEdit.AtMostOneEffect | cmd/kata/cron_edit.go:126-218 | at most one PUT of a run takes effect and nothing follows it |
| CronEdit.EffectReplacesWhatWasSeen | cmd/kata/cron_edit.go:126-218 | what a PUT replaced is the newest revision shown, either the opening one or one under a CONFLICT line that the next save no longer had, and what it stored is the draft just saved |
| CronEdit.NothingFollowsAnUnacknowledgedConflict | cmd/kata/cron_edit.go:126-149 | a save that still has the CONFLICT line ends the run, so no PUT is sent with it |
| CronEdit.NothingFollowsAnIdleSave | cmd/kata/cron_edit.go:126-149 | so does a save that empties the draft or repeats it as it was reopened under an error |
| CronEdit.AcknowledgedWasShown | cmd/kata/cron_edit.go:184-217 | a revision counts as acknowledged only after the diff to it, from the base of the refused PUT, was shown above the very draft that was refused |
| Publication.Disk.Verify | cmd/kata/agent_hooks_native.go:114-123 | a check logs what it saw, and succeeds only on a file that matches the preimage |
| Publication.Disk.VerifyAndPut | cmd/kata/agent_hooks_native.go:262-269 | a change is published only onto its preimage and only at its own path; a failed operation changes nothing |
| Publication.Disk.TryPutBack | cmd/kata/agent_hooks_native.go:305-331 | a published path is put back if and only if it still holds what was published there and reading and replacing it work; nothing else counts as a failure |
| Publication.Stage | cmd/kata/agent_hooks_native.go:224-253 | on success every change is staged with its content and with the mode its file was seen to have |
| Publication.VerifyAll | cmd/kata/agent_hooks_native.go:256-260 | success means every preimage was checked, in order |
| Publication.PutChanges | cmd/kata/agent_hooks_native.go:261-277 | the changes before the published counter were put in order, and no other |
| Publication.Rollback | cmd/kata/agent_hooks_native.go:305-331 | every published change is visited once, latest first, retained tells whether one could not be put back, and the operations that failed are exactly the ones it reports |
| Publication.PublishWithFileOps | cmd/kata/agent_hooks_native.go:133-278 | every run either touches nothing, or succeeds with all changes put, or fails at a step and visits exactly the published ones in reverse; it fails only if an operation does, a path occurs twice or a change not put yet did not match the disk |
| Publication.Publish | cmd/kata/agent_hooks_native.go:125-131 | the same for the call as the command makes it, and on a disk that nobody else writes to: a failure without a failing rollback operation leaves every file as it was and reports no change, and with distinct matching paths it fails exactly if an operation does |
| Publication.RestoreUndoesPublish | cmd/kata/agent_hooks_native.go:305-331 | putting one change back undoes publishing it, existence, bytes and mode included |
| Publication.QuietFailureRestores | cmd/kata/agent_hooks_native.go:133-331 | if no one else writes and the rollback operations succeed, a failure at any step, planning and staging included, leaves every path as it was and nothing is retained |
| Publication.QuietSuccessHolds | cmd/kata/agent_hooks_native.go:133-278 | if no one else writes, success leaves exactly the planned contents with their old modes (0600 when new) and no other path changed |
| Publication.QuietRunIsNeverStale | cmd/kata/agent_hooks_native.go:133-278 | if no one else writes and distinct paths match at the start, no change is ever found not to match, so only a failing operation makes the call fail |
| Publication.RollbackTouchesOnlyItsOwn | cmd/kata/agent_hooks_native.go:305-331 | under arbitrary outside writes, what the rollback replaces or removes held exactly what this publication put there |
| Publication.NothingRetainedMeansAllPutBack | cmd/kata/agent_hooks_native.go:256-277 | a failure with retained false put every published path back to its preimage |
| Publication.EveryPreimageRechecked | cmd/kata/agent_hooks_native.go:254-260 | before the first put every preimage matched, read-only guards included, and no guard is written |
| Publication.OwnStepIsLocal | cmd/kata/agent_hooks_native.go:224-331 | a step of the publication changes no path but the one of its change |
| Attention.Daemon.SetMetaIfRevision | cmd/kata/attention_hook.go:197-236 | a write lands only at the revision it names; failed leaves open whether it landed |
| Attention.AttnStartSession | cmd/kata/agent_hooks_attention_native.go:327-358 | the requests of a call are a complete run of the start program, with the errors it reports; at a daemon that answers, on an issue nobody else writes, its session is recorded and, if that is new, the attention is "ok" |
| Attention.AttnEndSession | cmd/kata/agent_hooks_attention_native.go:359-395 | the same for the end program; its session is replaced by the mark of its end and "ok" is handed to a human, and an issue of another session stays as it is |
| Attention.AttnStart | cmd/kata/attention_hook.go:109-123 | the same for the legacy start, which reports nothing and leaves the attention "ok" |
| Attention.AttnEnd | cmd/kata/attention_hook.go:128-145 | the same for the legacy end, which hands "ok" to a human and leaves any other attention |
| Attention.NilMeansSettled | cmd/kata/agent_hooks_attention_native.go:327-395 | a session call returns nil if and only if its last exchange is a write that took effect, a gone issue, or a lookup that shows its own session to a start and another to an end; an error means an unavailable lookup, a failed write or two conflicts |
| Attention.LegacyStopsWhenSettled | cmd/kata/attention_hook.go:109-145 | a legacy call stops only at such an exchange, an end also at an attention other than "ok", or at trouble it keeps to itself |
| Attention.CallsFollowTheirPrograms | cmd/kata/agent_hooks_attention_native.go:327-395 | every call of the interleaved system makes the requests of its method's program |
| Attention.EveryWriteIsRightful | cmd/kata/agent_hooks_attention_native.go:327-395 | in every interleaving an end takes effect only on an issue whose stored session is its own, and writes only the hand-off or the mark of its end |
| Attention.EndsKeepOtherAttention | cmd/kata/agent_hooks_attention_native.go:359-395 | an attention value other than "ok" is never overwritten by an end, native or legacy |
| Attention.SupersededOwnerIsPowerless | cmd/kata/agent_hooks_attention_native.go:359-395 | once another session holds the issue, an owner that does not start again never gets an end through |
| Attention.EndsArePaidFor | cmd/kata/agent_hooks_attention_native.go:327-395 | landed ends of an owner are bounded by the writes that made it the session, whatever these reported |
| Attention.StampsAreStarts | cmd/kata/agent_hooks_attention_native.go:327-358 | those writes are its landed starts when no one else records it |
| Attention.EscalationsNeverOutnumberStarts | cmd/kata/agent_hooks_attention_native.go:359-395 | escalations by an owner never outnumber its landed starts, even when a failed write landed |
| Attention.EachCallLandsAtMostOnce | cmd/kata/agent_hooks_attention_native.go:327-395 | no retry follows a write that landed |
| LosslessJson.RenderExtraJSONValue | cmd/kata/agent_hooks_extra.go:444-553 | the recursive writer with its loops over members and items produces the specified text |
| LosslessJson.RenderExtraJSON | cmd/kata/agent_hooks_extra.go:426-442 | the same for a document: unchanged values keep the file as it is, blank files are written anew |
| LosslessJson.RenderReads | cmd/kata/agent_hooks_extra.go:444-553 | the rendered text reads as the new value if and only if that value adds no null where there was nothing |
| LosslessJson.DocumentReads | cmd/kata/agent_hooks_extra.go:426-442 | the same for whole documents |
| LosslessJson.AddedNullIsLost | cmd/kata/agent_hooks_extra.go:444-553 | two values that do not read back: a null member beside nothing, and a null in an array that held none |
| LosslessJson.UnchangedSubtreeKeepsItsText | cmd/kata/agent_hooks_extra.go:444-553 | a subtree equal to its original, below any names and indices, keeps its text if and only if that text survives: always below changed objects, below a changed array only in an item the old array held, by the text of its first occurrence |
| LosslessJson.NamesAloneKeepTheText | cmd/kata/agent_hooks_extra.go:444-508 | at any depth of objects every unchanged subtree keeps its text, whatever changes around it |
| LosslessJson.TextBesideAChangeIsLost | cmd/kata/agent_hooks_extra.go:528-540 | an escaped string in an array item loses its spelling when the field beside it changes |
| LosslessJson.NewTextIs | cmd/kata/agent_hooks_extra.go:444-553 | a value written anew has its authored text if and only if that is nothing but bare brackets |
| LosslessJson.ChangedObjectKeepsOrder | cmd/kata/agent_hooks_extra.go:448-508 | surviving members keep their authored order, added ones follow sorted |
| LosslessJson.ChangedArrayKeepsItems | cmd/kata/agent_hooks_extra.go:509-551 | an item that the original held keeps the text of its first occurrence |
| Json.SortStrings | cmd/kata/agent_hooks_extra.go:471-478 | sorting the added names gives the one ascending list of them |
| HookKinds.GeneratorAgrees | cmd/kata/agent_hooks_extra.go:301-410 | a generated handler is classified as its own kind if and only if the executable may own handlers, and as foreign otherwise |
| HookKinds.ArgvAgrees | cmd/kata/agent_hooks_extra.go:384-410 | the same for argument vectors, for every target and kind |
| HookKinds.ArgvKindMeans | cmd/kata/agent_hooks_extra.go:384-410 | an argument vector is Kata's of a kind if and only if it has arguments, its executable may own handlers, and they are the kind's arguments with its source, or without one under a name that is Kata's |
| HookKinds.KindOfMeans | cmd/kata/agent_hooks_extra.go:320-382 | a handler is Kata's of a kind if and only if it is a command handler without separate arguments that has a command line and whose every command line spells such a vector of that kind, or a process of ZCode's with one command that is such a vector; every other one is foreign |
| HookKinds.MayOwnMeans | cmd/kata/agent_hooks_extra.go:384-410 | an executable may own handlers exactly if it has a slash of either kind or is kata or kata.exe |
| HookKinds.QuotingSpells | cmd/kata/agent_hooks_config.go:204-297 | a quoted command is one of those the agreement is about |
| HookKinds.ForeignCommand | cmd/kata/agent_hooks_extra.go:320-382 | a handler whose command is not Kata's is foreign |
| HookPlan.PlanHooks | cmd/kata/agent_hooks_extra_json.go:152-221 | the planner's loops over kinds, sections and entries produce the specified plan |
| HookPlan.RemoveKind | cmd/kata/agent_hooks_extra_json.go:378-415 | removing a kind thins every event, in whatever order the map is visited |
| HookPlan.ThinningFilters | cmd/kata/agent_hooks_extra_json.go:378-415 | removing a kind filters the ordered registrations of every event |
| HookPlan.PlanFinishes | cmd/kata/agent_hooks_extra_json.go:152-297 | after a plan each selected kind has exactly one handler in place, eligible (the Muse field checks included) and as desired, or none on uninstall |
| HookPlan.PlanKeepsForeign | cmd/kata/agent_hooks_extra_json.go:152-215 | the ordered foreign registrations of every event survive a plan if and only if it writes none that is not recognized; every uninstall keeps them, whatever its executable |
| HookPlan.PlanForeign | cmd/kata/agent_hooks_extra_json.go:152-215 | the foreign registrations after a plan are those before it, followed by the handlers written by an executable that is not recognized |
| HookPlan.PlanKeepsUnselected | cmd/kata/agent_hooks_extra_json.go:152-215 | so do the owned ones of kinds that were not selected |
| HookPlan.PlanKeepsSettled | cmd/kata/agent_hooks_extra_json.go:152-215 | a handler that is in place and needs no repair stays as it is, whatever other fields it has |
| HookPlan.PlanIsIdempotent | cmd/kata/agent_hooks_extra_json.go:152-215 | planning twice is planning once, unless an executable is written that is not recognized |
| HookPlan.UnrecognizedPlanRepeats | cmd/kata/agent_hooks_extra_json.go:152-215 | in that case planning twice is never planning once |
| HookPlan.RenamedPlanRepeats | cmd/kata/agent_hooks_extra_json.go:152-215 | one such input: an executable called hooks |
| HookPlan.FreeNameIsFree | cmd/kata/agent_hooks_extra_json.go:185-192 | the search for a block name ends at the first one not taken |
| HookEntries.PlanEntries | cmd/kata/agent_hooks_extra_json.go:152-221 | the entries of every event after a plan are those before it, in order, groups with their other fields, less the handlers of the kinds that needed a round, followed by the new entries; only a group with nothing left disappears |
| HookEntries.PlanKeepsSettings | cmd/kata/agent_hooks_extra_json.go:378-415 | every setting that is no event stays as it was |
| HookEntries.PlanKeepsBlocks | cmd/kata/agent_hooks_extra_json.go:209-215 | a block disappears only for Antigravity and only if it has lost its last event, and then it held nothing but Kata's handlers; one that was empty stays |
| HookDocument.PlanExtraJSONHooks | cmd/kata/agent_hooks_extra_json.go:52-248 | from the text to the new text: reading, refusing what is malformed, planning, setting the switch of ZCode and rewriting are the specified composition |
| HookDocument.SectionBack | cmd/kata/agent_hooks_extra_json.go:309-356 | nothing is lost in reading a section |
| HookDocument.PlannedReads | cmd/kata/agent_hooks_extra_json.go:152-248 | the written text reads back as what was planned if and only if no null is left in an entry that loses a handler and keeps one |
| HookDocument.NewFileReads | cmd/kata/agent_hooks_extra_json.go:23-38 | what is written for a file that did not exist always reads back; one that exists but is blank is refused |
| HookDocument.NewAddsItsNulls | cmd/kata/agent_hooks_extra.go:444-553 | a value written anew reads back if and only if it holds no null |
| HookUninstall.MixedGroupLosesNull | cmd/kata/agent_hooks_extra.go:509-551 | removing one of two handlers from a group with a null matcher writes a text that is no JSON, whatever text the configuration was |
| HookUninstall.UninstallLosesNull | cmd/kata/agent_hooks_extra_json.go:138-248 | there is such a text with a handler that Kata wrote |
| HookReplan.PlannedIsRead | cmd/kata/agent_hooks_extra_json.go:52-248 | reading what was planned is accepted and gives the plan of what was read |
| HookReplan.PlanKeepsTheRest | cmd/kata/agent_hooks_extra_json.go:52-248 | every member of the configuration but the hooks stays as it was, and of ZCode's hooks every one but the events and the switch |
| HookReplan.PlanKeepsBlockSettings | cmd/kata/agent_hooks_extra_json.go:152-248 | so does every setting beside the events of a section |
| HookReplan.SwitchAfter | cmd/kata/agent_hooks_extra_json.go:222-227 | ZCode's switch is set only by an installation, only where it was unset, and only if it switches no foreign handler on; otherwise it stays |
| HookReplan.PlannedTwice | cmd/kata/agent_hooks_extra_json.go:52-248 | planning a planned root gives that root, switch included, if what was written is recognized |
| HookReplan.PlannedFileStays | cmd/kata/agent_hooks_extra.go:426-442 | and the file is left byte for byte |
| HookMasking.ProtectionToken | cmd/kata/agent_hooks_config.go:926-952 | the search ends with the shortest extension of the token that no string value contains |
| HookMasking.ProtectHandler | cmd/kata/agent_hooks_config.go:535-561 | exactly the nonempty commands and arguments get masks, numbered without repetition |
| HookMasking.NewMask | cmd/kata/agent_hooks_config.go:535-539 | a further mask is distinct from all before it |
| HookMasking.MasksAreNew | cmd/kata/agent_hooks_config.go:529-561 | no mask is a string value of the document |
| HookMasking.RestoreScalar | cmd/kata/agent_hooks_config.go:610-620 | the search through the masks finds the masked value in whatever order the map is visited |
| HookMasking.HandlerRestores | cmd/kata/agent_hooks_config.go:562-584 | a masked handler restores to what the original restores to |
| HookMasking.ProtectCommands | cmd/kata/agent_hooks_config.go:529-605 | every command and argument of every entry is replaced by its own new mask, the owned handlers carry the marker, and restoring gives the original with the marker on the owned handlers and nothing else changed; a marker with a character that no mask has occurs in the commands and arguments of the owned handlers and of no others |
| HookMasking.Stage | cmd/kata/agent_hooks_config.go:562-593 | the loop that rewrites handlers leaves at every entry its masked handler, marked if owned, and restoring it gives back the original, given masks that are apart from the document |
| HookMasking.RestoringNothing | cmd/kata/agent_hooks_config.go:610-640 | a document without masks restores to itself |
| HookMasking.PlaceholderIsNoMask | cmd/kata/agent_hooks_config.go:475-475 | the marker used for uninstalling has such a character and can never be a mask |
| HookMasking.InstallMarkersTell | cmd/kata/agent_hooks_bundle.go:61-66 | so do the markers used for installing, for every agent and kind |
| HookMasking.FoundAreOwned | cmd/kata/agent_hooks_config.go:392-394 | a search for such a marker in staged commands and arguments is bounded to the owned handlers |
| Jsonc.NormalText | cmd/kata/agent_hooks_plugins.go:564-645 | the two in-place passes compute the normalized text or report an unterminated comment |
| Jsonc.BlankComments | cmd/kata/agent_hooks_plugins.go:565-616 | the nested loops over the buffer blank comments and nothing else |
| Jsonc.BlankTrailingCommas | cmd/kata/agent_hooks_plugins.go:617-644 | the second loop blanks exactly the commas before a closing bracket |
| Jsonc.AuthoredBytes | cmd/kata/agent_hooks_plugins.go:562-645 | a byte of the normalized text that is not white is the authored byte at the same offset |
| Jsonc.StringsStay | cmd/kata/agent_hooks_plugins.go:562-645 | inside a string every byte stays, in both passes |
| Jsonc.InsertionIsLocal | cmd/kata/agent_hooks_plugins.go:564-645 | plain text inserted behind an opening bracket shows up unchanged and changes nothing else in the normalized text |
| JsoncCuts.CutIsLocal | cmd/kata/agent_hooks_plugins.go:562-645 | cutting authored text between two places outside strings and comments cuts the normalized text likewise, unless a comma in front would lose what it separates |
| JsoncComments.CommentIsBlank | cmd/kata/agent_hooks_plugins.go:562-616 | a comment put in anywhere outside strings and comments, but not right behind a slash, adds blanks to the normalized text, with its line ends, and changes nothing else |
| JsoncComments.TrailingCommaIsBlank | cmd/kata/agent_hooks_plugins.go:617-644 | a comma put in front of a closing bracket, with none there yet, adds one blank |
| JsoncComments.UnclosedIsRefused | cmd/kata/agent_hooks_plugins.go:596-616 | a block comment that is not closed is an error |
| JsoncComments.PlainJsonStays | cmd/kata/agent_hooks_plugins.go:562-651 | JSON without comments is its own normalized text |
| PluginConfig.PluginsProperty | cmd/kata/agent_hooks_plugins.go:657-696 | decoding finds the property "plugins" of the root object with the offsets of its key, its value and its end |
| PluginConfig.WidenRange | cmd/kata/agent_hooks_plugins.go:749-763 | the loops that move the offsets take the comma behind an item, or else the one before it |
| PluginConfig.EditPluginAgentHookConfig | cmd/kata/agent_hooks_plugins.go:697-779 | the edit by offsets is the specified one, refusals included |
| PluginConfig.RemoveEmptyPluginAgentHookProperty | cmd/kata/agent_hooks_plugins.go:780-812 | the same for removing an empty property |
| PluginRemoval.RemovalIsExact | cmd/kata/agent_hooks_plugins.go:729-766 | removing from any configuration with an array of plugins, whoever wrote it: it reports the registration present if and only if an item stands for it; without one nothing changes; otherwise exactly the first such item goes, with blanks and one comma at most, the result is a valid object in which the property is where it was and has all other items in order, and the bytes on both sides stay |
| PropertyRemoval.PropertyRemovalIsExact | cmd/kata/agent_hooks_plugins.go:780-812 | removing the property from any configuration: if it has no items exactly this member goes, with blanks and one comma at most, and what is left is a valid object of the other members in order; otherwise nothing changes |
| PropertyRemoval.EmptyMeansNoItems | cmd/kata/agent_hooks_plugins.go:786-792 | an array counts as empty if and only if it has no items, and of all other values only null |
| PropertyRemoval.RunLowered | cmd/kata/agent_hooks_plugins.go:657-696 | what may follow the property in an object may stand there without it, and names it no second time |
| PluginAddition.AdditionIsExact | cmd/kata/agent_hooks_plugins.go:729-779 | adding to any configuration with the property is accepted if and only if that is an array; if an item stands for the registration nothing changes, and otherwise it becomes the first item of an array that is where it was and keeps all others |
| PluginAddition.CreationIsExact | cmd/kata/agent_hooks_plugins.go:715-728 | without the property, it becomes the first member, with this one item, and all other members stay |
| PluginAddition.NewFileIsCreated | cmd/kata/agent_hooks_plugins.go:697-728 | adding to an empty file makes an object of the property alone |
| PluginRoundTrip.RemovingUndoesAdding | cmd/kata/agent_hooks_plugins.go:697-819 | adding a registration to a nonempty configuration that lacks it, and removing it with the property if that was created, gives the authored bytes back exactly |
| PluginRoundTrip.CreatedIsRemoved | cmd/kata/agent_hooks_plugins.go:715-812 | the case in which the addition creates the property |
| PluginRoundTrip.InsertedIsRemoved | cmd/kata/agent_hooks_plugins.go:729-779 | the case in which the property exists |
| PluginEdits.RunLifted | cmd/kata/agent_hooks_plugins.go:715-726 | a valid object without the property stays valid with it in front, duplicate names being errors |
| PluginEdits.KeyAtSwap | cmd/kata/agent_hooks_plugins.go:657-696 | what follows the property's value has no say in where it is found |
| Service.Service.BeginCall | service.go:610-634 | a call is counted under the mutex unless the service is closed |
| Service.Service.BeginRun | service.go:743-783 | a run is refused without context or fence, when closed or while another is active |
| Service.Service.BeginClose | service.go:1123-1140 | the first Close marks the service closed and takes the run to wait for; later ones only wait |
| Service.StepKeepsInv | service.go:610-783 | every step of every goroutine keeps the life-cycle invariant |
| Service.StorageClosedOnceAndIdle | service.go:1123-1151 | storage is closed at most once, with no handler, host call or run in flight |
| Service.ClosedStorageIsIdle | service_projects.go:224-245 | while storage is closed nothing is in flight, host calls included |
| Service.AtMostOneRun | service.go:743-783 | at most one run is active in every reachable state |
| Service.NothingBeginsAfterClose | service.go:610-634 | no handler, host call or run begins once the service is marked closed |
| Service.AdmittedUnlessClosed | service.go:610-783 | a call begins if and only if no Close has begun, and a run if and only if, besides, no other is active; what does not begin is refused |
| Service.ClosersAgree | service.go:1123-1151 | all Close calls that have returned have returned the same error |
| Service.CloseReturnsTheStoragesError | service.go:1123-1151 | the error that a Close returns is the one of closing the storage |
| Service.SomeoneCanMove | service.go:1123-1151 | Close never deadlocks: a goroutine that exists can take a step exactly as long as one has not left |
| Service.StepCountsDown | service.go:610-783 | every step of a goroutine that exists leaves one step less to take, and once the service is closed only a further Close adds one |
| Service.EveryCloseReturns | service.go:1123-1151 | after closing, a scheduler that goes on moving existing goroutines makes exactly that many steps, and then every Close has returned and everyone else has left |
| RunErrors.CheckOnly | service.go:1042-1070 | the recursive check with its loop over joined causes is isOnlyError |
| RunErrors.IsOnlyMeansLeaves | service.go:1042-1070 | it holds exactly when no join is empty and every leaf matches some target |
| RunErrors.WorkerResultNil | service.go:1032-1037 | a worker's result is nil exactly for no error, or for a tree of the terminal error and finished-transaction leaves that contains the terminal error; any other result has the leaves of the error |
| RunErrors.FenceRecorder.Record | service.go:994-1006 | the recorder keeps the first error that counts of everything recorded |
| RunErrors.FirstCountedIsFirst | service.go:978-1021 | that is the first error not both cancellation-only and recorded after unwinding began |
| RunErrors.FirstCountedIsStable | service.go:978-1021 | once it holds an error the recorder never changes |
| RunErrors.RunResultNil | service.go:1100-1113 | Run returns nil exactly when all workers do and a fence failure consists of the caller's terminal error only |
| RunErrors.RunResultLeaves | service.go:1100-1113 | what Run returns has the leaves of the fence failure that ended it, or else those of all worker results |
| RunErrors.FailuresReachTheCaller | service.go:937-962 | a fence rejection without a stopped caller, and any worker failure, reach the caller |
| MarkedLines.MarkerLines | cmd/kata/agent_instructions.go:298-309 | the loop over lines finds exactly the lines equal to the marker, LF, CRLF or unterminated |
| MarkedLines.FoundAreMarkerLines | cmd/kata/agent_instructions.go:298-309 | a span is found if and only if it is a whole line that equals the marker up to its line end |
| MarkedLines.ScanParts | cmd/kata/agent_instructions.go:298-309 | markers in whole lines are found part by part |
| Instructions.SpanOfBlock | cmd/kata/agent_instructions.go:274-326 | an installed block among unmarked text is found from its begin to the end of its end line |
| Instructions.BlockIsTheOnlyOne | cmd/kata/agent_instructions.go:274-326 | in any file a block is found only between its one begin marker and its one end marker, in this order, and takes along no more than the line end or the fence line in front of it |
| Instructions.NoBlockMeansNoMarker | cmd/kata/agent_instructions.go:274-280 | a file counts as without a block if and only if no line is a marker |
| Instructions.UninstallTakesOneBlock | cmd/kata/agent_instructions.go:229-264 | uninstalling leaves any file without markers as it is and changes another one only by taking out its one block |
| Instructions.UninstallTakesSoundBlocks | cmd/kata/agent_instructions.go:229-264 | without fences it refuses no file that has one begin marker in front of one end marker |
| Instructions.UninstallUndoesInstall | cmd/kata/agent_instructions.go:229-264 | uninstalling gives back the text before and after, if and only if the text before did not end in a bare CR |
| Instructions.ReinstallReplaces | cmd/kata/agent_instructions.go:243-264 | installing over a block replaces that block and keeps the text on both sides |
| Instructions.InstallIsIdempotent | cmd/kata/agent_instructions.go:229-264 | installing twice is installing once, if and only if the text did not end in a bare CR |
| Instructions.FencedRoundTrip | cmd/kata/agent_instructions.go:313-326 | a block behind a fence line is taken out with the fence and leaves the rest |
| Instructions.OwnedRoundTrip | cmd/kata/agent_instructions.go:229-264 | uninstalling a file of its own that install created, fenced or not, leaves exactly the text put around the block |
| Instructions.OwnedReinstall | cmd/kata/agent_instructions.go:229-264 | installing over such a file replaces its block only, the same instructions change nothing, and a nonempty file without a block is refused |
| Instructions.MarkersAreUsable | cmd/kata/agent_instructions.go:14-19 | the markers are distinct single lines |
| InstructionFiles.Home.Apply | cmd/kata/agent_instructions.go:347-381 | it succeeds exactly if every file is as planned and nothing reports an error; success puts every changed file in place; after a failure with a working rollback every file is as before, late errors of published writes included; nothing else is touched |
| InstructionFiles.Home.Rollback | cmd/kata/agent_instructions.go:364-377 | all completed writes are undone, going on after a failed one, and nothing counts as failed that was not |
| ShellWords.LiteralWords | cmd/kata/agent_hooks_config.go:204-297 | the byte loop computes the specified words or refuses |
| ShellWords.WordsAreOfTheLine | cmd/kata/agent_hooks_config.go:204-297 | the byte loop and a grammar of lines, words and quoted pieces agree on every command: the same words, or both refuse |
| ShellWords.WordsUndoQuoting | cmd/kata/agent_instructions.go:120-120 | for every nonempty list, the words of its quoted arguments are the list, empty arguments, quotes and newlines included |
| ShellWords.OperatorIsRefused | cmd/kata/agent_hooks_config.go:266-267 | a quoted command with anything behind it that a shell acts on is refused |
| ShellWords.EscapedIsRead | cmd/kata/agent_hooks_config.go:204-297 | escaped text inside single quotes is read as the text, whatever follows |
| SealedCode.NativeAgentHookDigest | cmd/kata/agent_hooks_generated.go:23-30 | the digest is the hash of all members, each behind its length |
| SealedCode.FramingIsInjective | cmd/kata/agent_hooks_generated.go:20-30 | two lists of members never give the hash the same bytes |
| SealedCode.NativeAgentHookCodeUnedited | cmd/kata/agent_hooks_generated.go:37-45 | code is accepted if and only if it is the seal of some newline-terminated body with these companions |
| SealedCode.EditsAreNoticed | cmd/kata/agent_hooks_generated.go:32-45 | an edit of a sealed body or its companions is accepted only if the hash confuses two different inputs |
| LogFollower.ActiveLog.ReadOnce | cmd/kata/daemon_logs.go:226-262 | the one-shot pass consumes exactly the snapshot it took the size of, whatever is appended meanwhile |
| LogFollower.ActiveLog.EmitNewLines | cmd/kata/daemon_logs.go:379-405 | every complete line from the offset on is consumed once, and none is left that was there at the start |
| LogFollower.Follower.Tick | cmd/kata/daemon_logs.go:344-371 | a poll keeps the offset in step with what was consumed, never goes back and never takes growth for rotation |
| LogFollower.Tail | cmd/kata/daemon_logs.go:269-339 | one-shot pass and follower together consume every byte up to the offset once and in order; these are the complete lines, on a line boundary, exactly when the snapshot ended on a newline; every line that was complete when the last poll began is consumed |
| LogFollower.OnlyDivision | cmd/kata/daemon_logs.go:373-405 | a text has one division into complete lines |

## Left out

- LosslessJson.DocumentReads: the reading of new values is not stated without the condition on nulls, because the code does not meet it; see above.
- HookDocument.PlannedReads: not stated without the condition on nulls, for the same reason.
- HookDocument.PlanExtraJSONHooks: values are compared as JSON, whereas the source also tells a generated number or list from a decoded one, which makes no difference to what is read back; the status that is reported beside the text is left out.
- HookPlan.PlanIsIdempotent: not stated for executables that are not recognized, because planning then adds its handlers again; see above.
- HookMasking.ProtectCommands: handlers are rewritten in values rather than in shared maps, so aliasing between parsed entries and the document is not captured; the entries' paths are taken to part ways, as those the inspection collects do.
- LosslessJson.UnchangedSubtreeKeepsItsText: not stated without the condition below changed arrays, because the code does not meet it; see above.
- CronEdit.EditLoop: how often the editor can be started is a finite number that nothing else is assumed about, so runs that never end are not covered.
- LogFollower.Tail: lines are counted when consumed; filtering, the limit on shown records and the carriage returns that the one-shot scanner strips are not.
- PluginRemoval.RemovalIsExact: of the decoder it is used that no number or literal holds a slash.
- PluginConfig.PluginsProperty: strings, numbers and literals are decoded by parameters, so the library's escapes, UTF-8 checks and nesting limit are not captured; a registration is never the empty string, which a null item would decode to.
- SealedCode.NativeAgentHookCodeUnedited: SHA-256 is a function of which only is used that a digest is one line.
- Symlinks, file locks, temporary names and directory creation in publication; paths are resolved and distinct.
- White space beyond ASCII in trimming, and UTF-8 other than as bytes.
- The Windows and PowerShell modes of the tokenizer, which are a parameter of the classifier.
- Error values with their own `Is` method, contexts and the effects of cancellation on workers.
- The messages of refusals and the warnings of the planners.
- The reported status of a configuration, which for Muse depends on the field types of foreign handlers as well; the texts of the instructions and actor quoting inside them.
- YAML, Hermes and TOML configurations, and the planner of the shared hook library, which is not part of this model.
- The storage layer, federation and its reconciler, of which only the revision and expected-event contracts are used.
- Log rotation in the middle of a poll, lines over the scanner's limit, and file status errors other than a missing log.
- Commands, flags, output modes, HTTP clients and daemon management.
