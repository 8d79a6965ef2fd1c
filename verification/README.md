# The ticket engine, modelled and verified in Dafny

A support desk turns customer messages from Telegram chats into tickets. This project models the
services that do so over one shared database, and proves what every run of them keeps: which
thread a message joins, what a redelivered or half-finished ingest job leaves behind, what the
audit log can be trusted for, whom round-robin and least-busy routing choose, what the analytics
reports add up to, how notifications are debounced, and what paging through the list visits.

`dafny verify dfyconfig.toml` checks everything.

## How it is built

*Rows and the state machine.* `Types.dfy` holds the rows. `Directory.dfy`, `Grouping.dfy`,
`Desk.dfy`, `Routing.dfy`, `Analytics.dfy` say what each database transaction does to the tables,
one function per transaction. `Engine.dfy` makes every service call a step of one state machine.
An ingest step carries a cut: the last write its job performs before it stops, so crashed jobs
are steps like any other. Lookups without a fixed answer (ties in a "latest first" query, rows
without an order) are choices recorded in the step and constrained by `LegalPicks`.

*The services.* `Storage.dfy` is the database as an object whose tables are fields;
`SenderServices.dfy`, `RoutingService.dfy`, `TicketServices.dfy`, `MessageServices.dfy`,
`IngestService.dfy`, `AnalyticsService.dfy`, `NotificationService.dfy` and `ChatDirectory.dfy`
are the service classes, written as the sources write them (fields updated in place, loops that
fill maps and lists), and each method is proved to have exactly the effect of the corresponding
function. `IngestOrchestratorService.Process` ties all of them together into the ingest step.

*What each operation does*, told on the rows of the tables and not through the functions above:
`Senders.dfy` (what becomes of a message), `ReplyJobs.dfy` (what is sent out, and what it quotes),
`Requests.dfy` (patches, assignments, mark-not-customer, confirmed sends, excluded senders,
settings, staff), `Activity.dfy` (when a ticket counts as touched), `ReportLines.dfy` (every field
of a report line, on `RoundedMeans.dfy`), `Preferences.dfy` (notifications told and sent on).

*The properties.* Invariants: `DeskInvariants.dfy`, `DeskKeeps.dfy`, `Reachable.dfy`. Runs:
`RunProperties.dfy`, `StrictTime.dfy`, `Quotes.dfy`. Redelivery and crashes: `Redelivery.dfy`,
`CrashRetry.dfy`. Threads against the split-at-gaps reference: `Sessions.dfy`,
`Sessionization.dfy`. Routing over runs: `Rota.dfy` (the two disciplines on their own),
`Fairness.dfy`, `LastGiven.dfy`. Reports: `RollupRuns.dfy`, `Reports.dfy`, `Averages.dfy`,
`ReportAverages.dfy`. `Notifications.dfy` and `Paging.dfy` hold specification and proofs of their
subjects. `Examples.dfy` has legal runs from an empty desk, one for each expectation the code does
not meet.

Some facts about a run are not in any table: how a ticket looked when it was created, where an
inbound row came from, which tickets mark-not-customer closed, when an agent was last given a
ticket, which tickets a stored statistics row was computed from. These are history variables (`History`, `Rollup.days`, `Rollup.seen`,
`Board.dispatches`); no operation reads them. In the classes they are ghost.

*Times.* Integer milliseconds. A step has one `now`; only the acknowledgement of a new thread is
written at a time of its own. The clock never goes back. "Strict" runs are those in which no two
writes share a millisecond; a theorem asks for them only where it says so.

## Where the code and its description differ

- README.md of the repository (line 106) says the audit log is written at every change of a
  ticket. Mark-not-customer closes a ticket without an entry. The log determines the status of a
  ticket except after that; `RunProperties.AuditReplay` and `MarkBreaksStatus` say exactly when.
- The guard `!data.resolvedAt` in `patch` (src/modules/tickets/tickets.service.ts:125) looks at the
  update being built, not at the stored row, so solving again overwrites `resolvedAt`; closing
  again overwrites `closedAt`. A report can therefore count one ticket's closing on two days:
  `Reports.ReportAgreesWithDirectCount` says exactly when, `ReportAverages.SamplesAreCurrent` the
  same for durations, and `Examples.ClosedAgainCountsTwice` is a run.
- `recordIncoming` is described as the backstop for a message Telegram delivers again after the
  queue has forgotten it (src/modules/tickets/messages.service.ts:31-36). The unique pair only helps
  if the second delivery lands on the same ticket. Past the idle window, unless the message
  replied to a live thread, it opens a second ticket instead: `Redelivery.RedeliveryIsNoOp`
  gives the exact condition, `Examples.LateRedeliveryDuplicates` a run.
- Round-robin is described as "assigned longest ago" (src/modules/routing/routing.service.ts:46). The
  query looks at when the tickets an agent holds now were created. `LastGivenRuns.RoundRobinAgreesIff`
  says in which states the two choose alike, `LastGivenRuns.RoundRobinIsLongestAgo` that they do as
  long as nobody reassigns, `LastGivenRuns.OutOfTurnMeansTaken` what must have happened if they do not, and `Examples.RoundRobinForgets` is a run in which they do not.
- A report whose range starts after today, but whose end is not before today, still adds today:
  `Reports.RequestAheadReportsToday`, and `Examples.TomorrowReportsToday` for a run.
- With equal update times the paging cursor can show one ticket twice and another never
  (`Paging.TiesMayHideATicket`, `Examples.OneMillisecondHidesATicket`). `Paging.PagingWorksIff` gives
  the exact condition: no full page but the last may end at a ticket that shares its update time
  with another selected one. How "the cursor, skip one" is carried out among rows of one time is up
  to the database client: it may skip one row by position, or sort all rows and skip through the
  cursor's own. `CursorReading` has both, and the condition is the same.
- A reply may find a customer message, and not the answer that followed it, as the latest row when
  both share a millisecond, and quote it again. `QuoteRuns.QuotesAgainIff` gives the exact condition
  for one reply, `QuoteRuns.OneQuotePerCustomerMessage` what remains true over every run, and
  `Examples.OneMillisecondQuotesTwice` is a run with two quotes.

## Model

| member | source | states |
|---|---|---|
| ThreadGrouping.CreatesIff | src/modules/tickets/thread-grouping/thread-grouping.service.ts:27-62 | a new thread starts exactly when the reply target is not live and every ticket of that chat and customer is closed, archived or idle for the window: testing the latest one alone is enough |
| ThreadGrouping.AttachMeaning | src/modules/tickets/thread-grouping/thread-grouping.service.ts:30-59 | the ticket attached to is of the chat and not terminal; by rule 1 it holds the replied-to message, by rule 2 it is the sender's most recent one and inside the window; it is revived iff not open |
| Storage.LatestWhere | src/modules/tickets/thread-grouping/thread-grouping.prisma-repository.ts:17-21 | the first row of a latest-first query: flagged, with no flagged row later than it; none iff nothing is flagged |
| Storage.Database.FindTicketByAnchorMessage | src/modules/tickets/thread-grouping/thread-grouping.prisma-repository.ts:13-24 | a latest message of the chat with the given Telegram id, or none if there is no such message |
| Storage.Database.FindMostRecentActiveTicket | src/modules/tickets/thread-grouping/thread-grouping.prisma-repository.ts:26-37 | a most recently updated ticket of the chat and customer that is not closed or archived, or none |
| Storage.Database.ListActiveMembers | src/modules/routing/routing.service.ts:20-23 | the active members of the team, each once, in any order |
| IngestServices.ThreadGroupingService.DecideThread | src/modules/tickets/thread-grouping/thread-grouping.service.ts:27-62 | rules 1 to 3 over legal answers of the two lookups; a new thread only if every thread of the customer in the chat is terminal or idle; an attached ticket is live, of the chat, and holds the replied-to message or is the sender's and inside the window |
| IngestServices.IngestOrchestratorService.Process | src/modules/tickets/ingest-orchestrator.service.ts:37-108 | a job run to its end changes directory and desk exactly as the ingest step does, for some legal answers of its lookups; it reports an agent or an excluded sender iff the tables say so, and a ticket message iff the sender counts as a customer, with the ticket and novelty the decision gives |
| SenderRuns.IngestOutcome | src/modules/tickets/ingest-orchestrator.service.ts:37-108 | in every reachable state: the message of an active agent or a barred sender changes nothing; one of a sender listed by name alone changes no ticket and bars the sender, unless a record out of force has the id; any other is on a row of a live ticket of its chat, which else only turned open, or begins an acknowledged ticket with the chat's priority and team and an assignee the strategy allows; chat and customer rows are there and up to date |
| SenderRuns.StoppedEarly | src/modules/tickets/ingest-orchestrator.service.ts:51-58 | an accepted job that stops before its ticket has written nothing, or the chat, or chat and customer |
| SenderRuns.AssignedByStrategy | src/modules/routing/routing.service.ts:15-62 | by the strategy: the chat's own assignee, or a member on duty with the fewest unresolved tickets, counted as a set, or one holding no ticket newer than all of any colleague's |
| IngestServices.IngestOrchestratorService.PlaceMessage | src/modules/tickets/ingest-orchestrator.service.ts:62-97 | the thread found is reopened if it was not open, else a ticket is created with the chat's priority and team and the routed assignee |
| SenderServices.ClientDetectionService.Classify | src/modules/telegram/client-detection.service.ts:16-44 | active agent, else excluded by id, else by a username-only record, which gets the id; that write fails, changing nothing, when an inactive record holds the id |
| SenderRuns.Verdicts | src/modules/telegram/client-detection.service.ts:16-44 | agent, excluded and customer, each exactly when the agent and exclusion tables say so; only a recognition by name writes, and then it bars |
| DirectorySpec.BarredIsIgnored | src/modules/telegram/client-detection.service.ts:17-25 | a sender barred by id is turned away whatever username it shows, and nothing is written |
| DirectorySpec.BackfillBars | src/modules/telegram/client-detection.service.ts:30-41 | a sender recognised by username is barred by id from then on |
| SenderServices.ChatsService.FindOrCreateByTelegramId | src/modules/chats/chats.service.ts:9-13 | returns the chat with the id, creating it only if there is none; a known chat keeps its title |
| SenderServices.ChatsService.UpdateSettings | src/modules/chats/chats.service.ts:29-45 | unknown chats and dangling group, team or assignee references are refused without a change; absent fields (group, team, assignee, strategy, priority, tags) are kept, null clears |
| RequestRuns.SettingsDo | src/modules/chats/chats.service.ts:29-45 | settings replace exactly what they mention, of that chat alone; with a dangling reference, nothing |
| RequestRuns.DutyFollows | src/modules/teams/teams.service.ts:19-36 | who is on duty after an agent is switched, joins or leaves: that agent and that team as asked, everybody else as before |
| SelectionLaws.ViewSelects | src/modules/tickets/tickets.service.ts:27-34 | a saved view asks for its statuses and its assignee |
| SenderServices.CustomersService.FindOrCreateByTelegramId | src/modules/tickets/customers.service.ts:8-24 | creates or renames the customer; a missing username leaves the stored one |
| SenderServices.ExcludedSendersService.Create | src/modules/excluded-senders/excluded-senders.service.ts:28-46 | refused without id and username, for an id already held, or an unknown author; otherwise an active record without the leading @ |
| SenderServices.ExcludedSendersService.Update | src/modules/excluded-senders/excluded-senders.service.ts:49-53 | unknown records are reported; name, note and active flag are changed where given, ids never |
| SenderServices.ExcludedSendersService.Remove | src/modules/excluded-senders/excluded-senders.service.ts:55-59 | the record is gone and no other is touched |
| SenderServices.ExcludedSendersService.MarkTicketSenderAsNotCustomer | src/modules/excluded-senders/excluded-senders.service.ts:75-100 | the sender is barred and the ticket closed with time and author; with an unknown author the bar may stay although the closing fails; no log entry |
| RequestRuns.MarkDoes | src/modules/excluded-senders/excluded-senders.service.ts:75-100 | closes that ticket alone, unlogged; afterwards barred are those who were and the customer, the latter also for an unknown author if a record has the id |
| RequestRuns.MarkRecords | src/modules/excluded-senders/excluded-senders.service.ts:82-92 | the record it adds carries id, username, name and the note why |
| RequestRuns.AddingBars | src/modules/excluded-senders/excluded-senders.service.ts:28-46 | a new record bars its id at once, or waits under its name without the at sign; nobody else's standing changes; refused ones leave nothing |
| RequestRuns.EditingBars | src/modules/excluded-senders/excluded-senders.service.ts:49-53 | switching a record decides its id's standing and nobody else's; ids and names are never edited |
| RequestRuns.RemovingFrees | src/modules/excluded-senders/excluded-senders.service.ts:55-59 | removing a record lets its id in and nobody else |
| RunProperties.ExclusionPersists | src/modules/excluded-senders/excluded-senders.service.ts:82-97 | after any run that spares the record, every further message of a barred sender changes nothing but the clock |
| RunProperties.WhatBars | src/modules/excluded-senders/excluded-senders.service.ts:82-97 | mark-not-customer bars the ticket's customer, and recognition by username bars the sender |
| TicketServices.TicketsService.CreateForNewThread | src/modules/tickets/tickets.service.ts:69-91 | one open ticket more, anchored on the message, pointer equal to the anchor |
| TicketServices.TicketsService.Patch | src/modules/tickets/tickets.service.ts:105-156 | fields, close and solve stamps, labels and log entry together, or nothing; succeeds iff ticket, references and labels exist and labels do not repeat |
| RequestRuns.PatchDoes | src/modules/tickets/tickets.service.ts:105-156 | every field mentioned has the value asked for, null cleared, labels exactly those listed; of the others only the stamps of closing or solving, and the time, changed; the log has the request; or nothing changed because a reference was unknown or a label listed twice |
| TicketServices.TicketsService.Assign | src/modules/tickets/tickets.service.ts:158-186 | assignee and log entry with the previous assignee together, or nothing |
| RequestRuns.AssignDoes | src/modules/tickets/tickets.service.ts:158-186 | assignee and time, no other field of any ticket, and the log entry with both assignees; or nothing |
| Activity.UpdateTimes | src/modules/tickets/tickets.service.ts:113-186 | for every step and ticket: the update time is the step's if a request, a first reply or a message touched the ticket, even if nothing else changed; otherwise the whole row is as it was |
| Activity.RequestKeepsThread | src/modules/tickets/thread-grouping/thread-grouping.service.ts:45-61 | after an accepted assignment or patch of a live ticket, and any steps on other chats, a reply-free message of its customer within the window of that request starts no ticket; it goes to that one if the sender's other live tickets in the chat are older |
| TicketServices.TicketsService.Close | src/modules/tickets/tickets.service.ts:188-190 | closed, with time and author |
| TicketServices.TicketsService.Reopen | src/modules/tickets/tickets.service.ts:192-194 | open again; the closing stamp stays |
| TicketServices.TicketsService.Snooze | src/modules/tickets/tickets.service.ts:196-198 | on hold until the given time |
| TicketServices.TicketsService.Bulk | src/modules/tickets/tickets.service.ts:200-220 | ticket by ticket, each on the state the ones before left; stops at the first ticket no form of the action can succeed on, keeping what was done before it |
| TicketServices.OneRefusalIsAll | src/modules/tickets/tickets.service.ts:212-217 | whether adding a label succeeds does not depend on the order the labels come in |
| TicketServices.TicketsService.Conditions | src/modules/tickets/tickets.service.ts:25-42 | the conditions filled in select exactly the tickets meant, by status, assignee, team, chat, chat group, label and text search: the request's status and assignee override the saved view's |
| SelectionLaws.OneConditionSelects | src/modules/tickets/tickets.service.ts:36-42 | what each condition asks on its own |
| SelectionLaws.ConditionsAddUp | src/modules/tickets/tickets.service.ts:25-42 | conditions add up; the request's status and assignee take the place of the view's |
| TicketServices.TicketsService.List | src/modules/tickets/tickets.service.ts:24-66 | one page of the selected tickets, most recently updated first, from the cursor, with the cursor of the next page iff there is more; for either reading of a cursor |
| Paging.PagingWorksIff | src/modules/tickets/tickets.service.ts:51-65 | for every filter, every limit of at least 1 and either reading of a cursor: every chain of pages shows no ticket twice and, when it ends, the whole sorted list, if and only if no full page but the last ends at a ticket whose update time another selected ticket shares |
| Paging.CursorsVisitEverythingOnce | src/modules/tickets/tickets.service.ts:51-65 | under that condition the chain moreover ends exactly when the rows are used up |
| Paging.CursorsWorkInStrictRuns | src/modules/tickets/tickets.service.ts:51-65 | in every state reached without two writes in one millisecond there is one sorted list, and a chain that has ended is that list |
| Paging.TiesMayHideATicket | src/modules/tickets/tickets.service.ts:54-56 | for any two tickets with equal update times and either reading of a cursor, one-row pages may end without the second |
| Examples.OneMillisecondHidesATicket | src/modules/tickets/tickets.service.ts:54-56 | a run from an empty desk that leads there: two customers write in one millisecond |
| MessageServices.MessagesService.RecordIncoming | src/modules/tickets/messages.service.ts:37-92 | row and client pointer together; a row with that id on the ticket makes the call a no-op; a recorded first message is acknowledged; the row returned carries the id |
| MessageServices.MessagesService.SendAutoAcknowledgement | src/modules/tickets/messages.service.ts:97-124 | one bot row and one outbound job that replies to the message; the ticket row is untouched |
| MessageServices.MessagesService.RecordOutgoingReply | src/modules/tickets/messages.service.ts:127-207 | the row, the first-response stamp if it was missing, and the job with the quote the mode asks for; unknown tickets and agents change nothing |
| ReplyJobs.ReplyJob | src/modules/tickets/messages.service.ts:127-207 | in every reachable state a reply of a known agent adds its row and one job to the ticket's chat with its text: told to quote, of the latest customer message, or the anchor before any; told not to, of nothing; left to itself, of the latest row if a customer's; zero ids are dropped; it is the first response exactly if there was none |
| ReplyJobs.QueueIsTrue | src/modules/tickets/messages.service.ts:97-207 | in every reachable state each job sends the text of one outgoing row to its ticket's chat, no row twice, and an acknowledgement quotes the first message of its thread |
| ReplyJobs.FirstResponseIsFirstAnswer | src/modules/tickets/messages.service.ts:183-185 | in every reachable state the first response is the time of the ticket's first row by an agent, missing iff there is none |
| MessageServices.MessagesService.ConfirmOutgoingSent | src/modules/tickets/messages.service.ts:210-215 | the row gets its Telegram id, unless another row of the ticket has it |
| RequestRuns.ConfirmDoes | src/modules/tickets/messages.service.ts:210-215 | the job's row gets the id and nothing else changes, unless another row of the ticket has it |
| Reachable.StepKeepsInv | src/modules/tickets/messages.service.ts:46-62 | every step, crashed ingest jobs included, keeps references, unique columns, lifecycle stamps, client pointers, provenance and the audit log consistent |
| Reachable.RunKeepsInv | src/modules/tickets/ingest-orchestrator.service.ts:37-108 | so does every run |
| RunProperties.ClientPointer | src/modules/tickets/messages.service.ts:57-60 | in every reachable state the client pointer is the id of the ticket's latest inbound message, or the anchor before any |
| RunProperties.AcknowledgedOnce | src/modules/tickets/messages.service.ts:81-85 | no ticket ever holds two bot messages |
| RunProperties.InboundBelongs | src/modules/tickets/thread-grouping/thread-grouping.service.ts:30-43 | every inbound row came from its ticket's chat, and from its customer unless it replied to an earlier row of that ticket |
| RunProperties.ThreadsAreSeparate | src/modules/tickets/thread-grouping/thread-grouping.service.ts:47-61 | under any agent actions: when a ticket is created, every earlier ticket of the same chat and customer is closed, archived or idle for the window |
| RunProperties.IngestRespectsTerminal | src/modules/tickets/ingest-orchestrator.service.ts:75-105 | ingest changes no field, row or log entry of a closed or archived ticket, and a ticket that gains a row is open |
| RunProperties.LifecycleStamps | src/modules/tickets/tickets.service.ts:121-127 | closed implies time and author, solved implies a resolution time, first response is stamped iff an agent has answered, no stamp precedes creation |
| RunProperties.FirstResponseSticks | src/modules/tickets/messages.service.ts:183-185 | once stamped, the first response never changes |
| RunProperties.AuditReplay | src/modules/tickets/tickets.service.ts:129-149 | folding the log over the creation state gives priority, assignee, team, labels, snooze and Jira key of every ticket, and its status exactly if mark-not-customer has not closed it since its last logged status or that status was closed; every assignment entry names the assignee replayed so far |
| RunProperties.MarkBreaksStatus | src/modules/excluded-senders/excluded-senders.service.ts:94-97 | mark-not-customer leaves the log true to the status iff the ticket was already closed |
| RunProperties.MarkLosesStatus | src/modules/excluded-senders/excluded-senders.service.ts:94-97 | a new ticket, marked: closed in its row, open in its log |
| QuoteRuns.AutoQuoteIsPointer | src/modules/tickets/messages.service.ts:149-164 | an automatic reply is sure to quote the client pointer exactly when no outgoing row has followed the latest inbound one, if and only if the rows at the ticket's latest time, one or several, are worth the same quote |
| QuoteRuns.QuotesAgainIff | src/modules/tickets/messages.service.ts:149-164 | when the ticket's last row is outgoing, an automatic reply may quote if and only if an inbound row with a non-zero id shares the millisecond of that last row |
| QuoteRuns.QuoteAnswersCustomer | src/modules/tickets/messages.service.ts:149-164 | in every reachable state, between any outgoing row, acknowledgement or reply, and a later automatic quote on its ticket there is a customer message, or one before both shares its millisecond with all the ticket's rows up to the quote |
| QuoteRuns.OneQuotePerCustomerMessage | src/modules/tickets/messages.service.ts:149-164 | in every reachable state two automatic quotes on one ticket have a customer message between them, unless one before both shares its millisecond with the first quote and all the ticket's rows up to the second |
| Examples.OneMillisecondQuotesTwice | src/modules/tickets/messages.service.ts:149-164 | the exception happens: a run from an empty desk in which two adjacent replies quote the same message |
| Examples.MayQuoteAgain | src/modules/tickets/messages.service.ts:149-164 | before the second of those replies the condition of QuotesAgainIff holds |
| StrictTime.LookupsUnambiguous | src/modules/tickets/thread-grouping/thread-grouping.prisma-repository.ts:20-32 | with distinct times both lookups have one answer |
| Redelivery.RedeliveryIsNoOp | src/modules/tickets/messages.service.ts:28-73 | a recorded message delivered again, after any steps on other chats, leaves tickets, messages, log and queue exactly as they were if and only if it comes within the idle window, or replied to a live thread when it came first, or its sender is no longer accepted; otherwise it opens a second ticket and is recorded there again |
| Redelivery.StrictFirstIsGood | src/modules/tickets/thread-grouping/thread-grouping.prisma-repository.ts:17-21 | in strict runs the theorem asks nothing of the first delivery but that it wrote and does not reply to itself |
| Redelivery.RetryCompletes | src/modules/tickets/ingest-orchestrator.service.ts:82-105 | after a crash between ticket and message, and any steps on other chats, a recognised retry adds the one missing row to that same ticket and moves its client pointer; no other ticket, row, log entry or job changes |
| CrashRetry.CrashThenRetry | src/modules/tickets/ingest-orchestrator.service.ts:73-105 | a job that stopped after any of its writes to a ticket, any steps on other chats, and a recognised retry leave the chat, up to times, with the tickets, conversation, log and outbound jobs of one clean run to at least the recorded message, and with no other ticket |
| CrashRetry.EarlyCrashThenLaterRetry | src/modules/tickets/ingest-orchestrator.service.ts:37-62 | a job that stopped before writing to a ticket, then any steps but messages to the same chat, then the retry: the crash left the desk alone, the message has exactly one row on the ticket chosen, and the chat has gained at most one ticket |
| Examples.LateRedeliveryDuplicates | src/modules/tickets/messages.service.ts:28-73 | a run from an empty desk: a message delivered again when the idle window has just passed ends on two tickets |
| Redelivery.EarlyCrashThenRetry | src/modules/tickets/ingest-orchestrator.service.ts:37-62 | a job that stopped before writing to a ticket, and its retry, are exactly one run at the retry's time |
| Redelivery.LateCrashThenRetry | src/modules/tickets/ingest-orchestrator.service.ts:73-105 | a job that stopped later, and its recognised retry, are up to times the first run carried on to recording; equal when the message was already recorded |
| Redelivery.CompletionAddsOnlyAck | src/modules/tickets/messages.service.ts:81-89 | all a completed run has beyond that is the acknowledgement of a new ticket |
| Sessions.SplitAtGaps | src/modules/tickets/thread-grouping/thread-grouping.service.ts:45-61 | the reference: consecutive messages of one sender in one chat share a session iff their gap is below the window |
| Sessionization.LookupIsSessionization | src/modules/tickets/thread-grouping/thread-grouping.service.ts:45-61 | over ingest-only runs of distinct, reply-free messages the tickets are the sessions of the reference, and every sender has in every chat one ticket plus one per gap that reaches the window |
| Sessionization.SameTicketIffShortGap | src/modules/tickets/thread-grouping/thread-grouping.service.ts:48-49 | two consecutive messages of a sender in a chat land on one ticket iff their gap is below the window |
| Sessionization.NoTies | src/modules/tickets/thread-grouping/thread-grouping.prisma-repository.ts:30-34 | for a positive window the most-recent lookup never has a tie in such runs |
| RoutingServices.RoutingService.DecideAssignment | src/modules/routing/routing.service.ts:15-62 | manual, no team or no active member gives the chat's default; otherwise an active member whom no colleague undercuts in true open tickets (or true last assignment), the first such in the listed order |
| RoutingServices.Filled | src/modules/routing/routing.service.ts:38-41 | zero for all, overwritten by the rows returned, is the true value of every member |
| RoutingServices.FirstSmallest | src/modules/routing/routing.service.ts:42-42 | the head of the entries sorted by value is the first minimum |
| Fairness.RoundRobinIsFair | src/modules/routing/routing.service.ts:46-61 | from any history, with n fixed active members in any listed order: n consecutive creations go to n distinct agents, and of k creations each gets k/n rounded down or up |
| Rota.RotaIsFair | src/modules/routing/routing.service.ts:46-61 | the same of "longest ago first" as a discipline on its own |
| Fairness.LeastBusyBalances | src/modules/routing/routing.service.ts:29-44 | over creations the loads never spread beyond the larger of one and the initial spread, and differ by at most one after as many creations as the members were together below the top |
| Fairness.WinnerIsMin | src/modules/routing/routing.service.ts:42-61 | the agent chosen is a member none of whose colleagues has a smaller load, or an earlier last assignment |
| LastGivenRuns.RoundRobinSeesLastGift | src/modules/routing/routing.service.ts:46-61 | in every reachable state the time round-robin looks at is never later than when the agent was last given a ticket, and is that time exactly if the agent has never been given one or still holds one created just then |
| LastGivenRuns.RoundRobinAgreesIff | src/modules/routing/routing.service.ts:46-61 | whatever order the members are listed in, round-robin chooses one assigned longest ago if and only if every member whose held tickets are the oldest was also given its last one longest ago |
| LastGivenRuns.OutOfTurnMeansTaken | src/modules/routing/routing.service.ts:46-61 | in every reachable state, if the agent chosen was not assigned longest ago, it no longer holds any ticket created when it was last given one |
| LastGivenRuns.RoundRobinIsLongestAgo | src/modules/routing/routing.service.ts:46-61 | over every run in which no ticket is reassigned by hand, the agent chosen is the one assigned longest ago |
| Examples.RoundRobinForgets | src/modules/routing/routing.service.ts:46-61 | a run from an empty desk: a ticket is taken from its agent, and the agent is chosen again before a colleague who has waited longer |
| AnalyticsServices.AnalyticsService.AggregateDailyForChat | src/modules/analytics/analytics.service.ts:78-87 | the row of that chat and day is replaced by the day's figures, no other is touched |
| AnalyticsServices.AnalyticsService.AggregateAllChatsForDate | src/modules/analytics/analytics.service.ts:89-95 | in whatever order the chats are listed, exactly the rows of every chat for that day |
| AnalyticsServices.AnalyticsService.ProcessNightly | src/workers/processors/analytics-aggregate.processor.ts:17-23 | always the day before the job runs |
| AnalyticsServices.AnalyticsService.AverageOf | src/modules/analytics/analytics.service.ts:25-28 | the mean rounded half up, null for no values |
| RoundedMeans.AverageIsRoundedMean | src/modules/analytics/analytics.service.ts:25-28 | null iff there are no values, else the mean rounded half up, as an inequality on the sum; RoundedMeanIsUnique, SumConcat and SumOne pin both |
| RoundedMeans.AverageInAnyOrder | src/modules/analytics/analytics.service.ts:25-28 | the order of the values does not matter |
| AnalyticsServices.AnalyticsService.ReportFor | src/modules/analytics/analytics.service.ts:109-146 | stored days of the range in any order, plus today if the range reaches it: sums, means of the non-null daily averages, and the unresolved tickets |
| AnalyticsServices.AnalyticsService.GetChatsAnalytics | src/modules/analytics/analytics.service.ts:102-149 | one such line for every chat of the group asked for, or for every chat, in any order |
| RollupRuns.MovesLose | src/modules/analytics/analytics.service.ts:43-50 | a past range can only lose times, and loses none exactly when none of its times was overwritten |
| RollupRuns.DurationsKeptIff | src/modules/analytics/analytics.service.ts:51-73 | the durations of a past range are later what they were exactly when none of the times that ended them was overwritten |
| RollupRuns.RunKeepsRollup | src/modules/analytics/analytics.service.ts:78-95 | over every run each stored row stays true to its day in opened, received and sent counts, was computed from tickets that have only moved on since, and every rolled-up day covers all chats that had anything before its end |
| Reports.ReportAgreesWithDirectCount | src/modules/analytics/analytics.service.ts:102-149 | in every reachable state with the past days of the range rolled up: opened, received and sent equal a direct count over the range; closed is never less and equal iff no closing counted in a stored row was overwritten since |
| Reports.RequestAheadReportsToday | src/modules/analytics/analytics.service.ts:109-123 | a range that starts after today and ends not before it reports exactly today in all four counts, though a direct count gives 0 |
| ReportLines.LineCounts | src/modules/analytics/analytics.service.ts:126-147 | in every reachable state with the past days rolled up, field by field: created, received and sent are the numbers of the chat's tickets created, rows come in and rows gone out in the range; closed is never less than the closings there, equal iff none counted was overwritten; backlog is the number unresolved |
| ReportLines.LineAverages | src/modules/analytics/analytics.service.ts:136-144 | the first-response average of a line is the rounded mean of the rounded means of the request's days, each over the seconds of exactly the tickets first answered that day, null iff there are none; so is the resolution average when no resolution averaged was overwritten |
| ReportLines.LineAhead | src/modules/analytics/analytics.service.ts:109-135 | a line of a range ahead of today has today's figures in all four counts |
| Examples.TomorrowReportsToday | src/modules/analytics/analytics.service.ts:109-123 | a run from an empty desk: the report of tomorrow, asked for today, has the one ticket of today, where a direct count has none |
| Reports.RerunChangesNothing | src/modules/analytics/analytics.service.ts:82-86 | rolling a finished day up again changes none of its opened, received and sent counts nor its first-response average; rows it adds count nothing |
| ReportAverages.SamplesAreCurrent | src/modules/analytics/analytics.service.ts:51-73 | in every reachable state a stored day was averaged over exactly the durations the table has for it if and only if no time that ended one was overwritten since; first responses never are |
| ReportAverages.AverageOverRequest | src/modules/analytics/analytics.service.ts:136-144 | the reported first-response average is null iff the range has no first response, and else between the rounded bounds of those durations; so is the resolution average when no resolution averaged for a stored day was overwritten since |
| ReportAverages.AverageWithinSamples | src/modules/analytics/analytics.service.ts:139-144 | both averages stay within the rounded bounds of the samples their days were computed from, null iff there were none |
| ReportAverages.DurationsArePositive | src/modules/analytics/analytics.service.ts:66-73 | no sampled duration is negative, in any reachable state and any range |
| Examples.ClosedAgainCountsTwice | src/modules/tickets/tickets.service.ts:121-124 | a run from an empty desk: closed on day 1, rolled up, closed again on day 2: 2 reported, 1 by a direct count |
| Averages.AverageWithin | src/modules/analytics/analytics.service.ts:25-28 | a rounded mean lies between the rounded bounds of its values |
| Averages.TwoLevelsWithin | src/modules/analytics/analytics.service.ts:139-144 | so does a rounded mean of rounded means |
| ChatDirectory.ChatDirectoryService.CountsOf | src/modules/chats/chats.service.ts:66-79 | summing the groups by status gives the true number of unresolved tickets and of all tickets of the chat |
| NotificationServices.NotificationsService.NotifyAgent | src/modules/notifications/notifications.service.ts:31-77 | a row of the same agent, ticket and kind of the last five minutes is refreshed and unread again, without a direct message; otherwise a new row and one dispatch |
| NotificationRuns.EventIsTold | src/modules/notifications/notifications.service.ts:39-74 | the event is told by one unread row of its key, old or new; no other row changes; a direct message goes with a new row only |
| NotificationRuns.SentUnlessSwitchedOff | src/modules/notifications/notifications.service.ts:79-102 | over every run each direct message is of an event, and sent unless the agent's last word on its kind before was no; without a word, it is sent |
| NotificationServices.NotificationsService.DispatchExternalChannels | src/modules/notifications/notifications.service.ts:79-102 | sent unless the agent switched the kind off |
| NotificationServices.NotificationsService.MarkRead | src/modules/notifications/notifications.service.ts:112-114 | only the agent's own row, only its read flag |
| NotificationServices.NotificationsService.MarkAllRead | src/modules/notifications/notifications.service.ts:116-121 | all rows of the agent, no other, only the read flag |
| NotificationRuns.ReadingMarks | src/modules/notifications/notifications.service.ts:112-121 | reading turns the flag of the agent's own rows, one or all, and nothing else |
| NotificationServices.NotificationsService.UpdatePref | src/modules/notifications/notifications.service.ts:127-139 | from now on that kind reaches that agent iff enabled; every other preference, default included, is as before |
| Debounce.DispatchesAreBursts | src/modules/notifications/notifications.service.ts:39-74 | over every run, per key: dispatches happen exactly at the starts of bursts, rows are the bursts dated at their last event, and both are equally many |
| Debounce.EventOpensRow | src/modules/notifications/notifications.service.ts:39-61 | an event opens a row iff there was no earlier event of the key or it is more than five minutes old |
| Debounce.RowsAreApart | src/modules/notifications/notifications.service.ts:39-61 | any two rows of a key are more than five minutes apart |
| Debounce.DispatchesAreRare | src/modules/notifications/notifications.service.ts:70-74 | k dispatches of a key span more than k - 1 windows |

## Left out

- HTTP controllers, validation, guards, login, uploads: only what they fix about arguments is kept (a page limit of at least 1).
- Telegram sends, the outbound rate limiter, Redis and Socket.IO: outbound jobs end in a sequence; a confirmed send is a step of its own, whenever it comes.
- Races between two jobs or between a job and a request: the code takes no lock; a step is a whole call, or a prefix of an ingest job.
- A stop between the two writes of mark-not-customer, between an agent reply and its job, or in the middle of a nightly run: only ingest jobs are cut short.
- Edited messages: the ingest path ignores the edit mark, so an edit is a redelivery.
- Preferences of channels other than Telegram, notifications without a ticket, the in-app event that follows a notification, the wording of direct messages and the notification list.
- Domain events and the listener that turns them into notifications: the notification board is a state machine of its own, driven by arbitrary events.
- How the text search matches: the rows it finds are an input of the list.
- Chat groups as a table with its own screen; customer notes, attachments, payloads of log entries beyond their fields.
- Labels, saved views, canned responses, organizations, teams and comments as tables with their own screens.
- Floating point: averages are computed in reals, and rounding is half up.
- Redelivery.RedeliveryIsNoOp: asks that no other live ticket of the sender in the chat was updated as late as the first delivery, and that its reply target is unambiguous; with two such writes in one millisecond the lookups may answer differently.
- A patch of labels alone is taken to move the ticket's update time, as the column's declaration says; whether the database client leaves an otherwise empty update out is not modelled.
- TicketServices.TicketsService.Bulk: all tickets of one call share one time.
- SenderServices.ExcludedSendersService.MarkTicketSenderAsNotCustomer: asks that the ticket's customer row exists, which the foreign key guarantees.
