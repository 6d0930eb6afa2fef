# Kanban mirror and webhook policy (kanbanmgr)

This project is a Dafny model of the core of kanbanmgr, a webhook receiver for a
GitHub organisation. The receiver keeps an in-memory mirror of one project board
and moves an issue's card between two columns when the issue's assignee changes.

- `kanban.dfy`, module `Kanban`, models the board mirror.
  - The two global slices are the `seq` fields `cards` and `columns` of class `Mirror`.
  - Its methods model `findCard`, `AppendCard`, `RemoveCard`, `ConvertCard`,
    `UpdateKanbanMetadata`, `moveIssue`, `moveIssueToColumn`, `MoveToTesting`,
    `MoveToDeveloping` and `GetIssueColumn`, each with the same early returns and
    error cases as the Go code.
  - Each method is proved against a specification function over plain values:
    `IndexOf`, `Removed`, `Moved`, `MovedByName`, `IssueColumn` and `Refresh`.
  - Lemmas state what the source promises about those functions.
- `webhooks.dfy`, module `Webhooks`, models the event switch of `githubWebhooks`.
  - `Decide` is a pure function that maps a decoded event and the mirror to an
    action. It covers the issue filter, the two transition rules and the
    card-action mapping.
  - `Apply` gives each action's effect, and `Step` composes the two.
  - `HandleEvent` and its two branch methods run the same switch against a
    `Mirror` and are proved equal to `Step`.

Calls into GitHub become inputs:

- A `RemoteBoard` value holds the project listing and, keyed by id, the column and
  card listings, each fully paginated. It also holds an oracle that gives the
  outcome of a move request.
- `Config` holds the configured organisation, project and the two column names.
- `Teams` holds the QA and Dev membership predicates.
- The move command a method sends to GitHub is returned as a `MoveCommand`. This
  way "exactly one move command" can be stated.

Where the documented design and the code differ, the model follows the code:

- There is no duplicate-id check on append. Two cards may therefore share an id.
  `findCard`, and so remove and convert, act on the first one.
- "Issue has no card" and "the card's column is unknown" produce the same error,
  `IssueNotInProject`. Cards whose column is unknown are skipped. Later cards of the
  same issue are still tried.
- A refresh loads every project whose name matches the target, not just one.
- A "moved" card event appends the card again (main.go:134-138). It does not update
  the stored entry. `MovedEventKeepsOldEntry` proves what follows from this: after
  such an event, delete, convert and the column lookup all still find the old entry.
- A refresh that fails part-way keeps the cards of the columns already loaded, but
  none of the failing project's columns. Columns of earlier target projects stay.
  `PartialRefreshInconsistent` exhibits one board where this leaves a card whose
  column the mirror lacks. The documented design calls such a state inconsistent.
- The end-to-end rule lemmas (`MoveBetweenColumns`, `RuleDevelopingToTesting`,
  `RuleTestingToDeveloping`) assume that no two columns share an id
  (`DistinctColumnIds`). Neither the code nor the refresh establishes this. It rests
  on the board service listing each column once.

## Model

| member | source | states |
|---|---|---|
| `Kanban.IndexOf` | kanban.go:88-95 | -1 exactly when no card has the id; otherwise the first index whose card has the id |
| `Kanban.Mirror.FindCard` | kanban.go:88-95 | the early-return scan returns `IndexOf` of the stored cards: -1 iff no stored card has the id, else the first match |
| `Kanban.Mirror.AppendCard` | kanban.go:97-103 | always succeeds: the new card is last, earlier entries and columns are unchanged, no uniqueness check |
| `Kanban.Removed` | kanban.go:114-116 | swap-with-last removal: length drops by one, the removed slot holds the former last card, all other slots unchanged |
| `Kanban.RemovedMultiset` | kanban.go:114-116 | as a multiset, swap-with-last removal equals the old contents minus the one removed entry |
| `Kanban.Mirror.RemoveCard` | kanban.go:105-118 | a missing id gives "card's not in project" with cards unchanged; a present id removes the first match by swap-and-truncate (multiset minus that entry) |
| `Kanban.IndexOfAppend` | kanban.go:88-103 | appending keeps `findCard`'s answer for an id already present and finds a new id at the old length |
| `Kanban.AppendThenRemove` | kanban.go:97-117 | for an id not present, appending a card and removing its id gives back exactly the original list |
| `Kanban.Mirror.ConvertCard` | kanban.go:120-131 | a missing id errors with no change; a present id keeps the length and puts the new card at the first matching index, nothing else changes |
| `Kanban.ConvertedFoundInPlace` | kanban.go:124-129 | after a conversion the card's id is still found at the same index |
| `Kanban.MoveTarget` | kanban.go:190-191 | the first card whose content URL is the issue's and whose column id differs from the target, or -1 when none |
| `Kanban.Mirror.MoveIssue` | kanban.go:186-201 | sends a move for the first such card only; stamps the target column id only if the remote move succeeds; "the issue is not in the project" when no such card exists |
| `Kanban.MoveEffect` | kanban.go:186-201 | the error is "not in the project" when no card is movable and otherwise exactly the remote move's answer for the picked card; on success only that card's column id changes, to the target; on error nothing changes; columns never change; a command is sent iff a movable card exists |
| `Kanban.AlreadyInColumn` | kanban.go:190-200 | when every card of the issue is already in the target column the move errors with "not in the project" and sends nothing |
| `Kanban.MoveThenLocate` | kanban.go:190-197 | after a successful move the issue resolves to the target column |
| `Kanban.ColumnNamed` | kanban.go:204-208 | -1 exactly when no column has the name; otherwise the first column with that name |
| `Kanban.Mirror.MoveIssueToColumn` | kanban.go:203-210 | with no column of that name it errors with no mutation and no command; otherwise it delegates to the first column with that name |
| `Kanban.Mirror.MoveToTesting` | kanban.go:212-214 | a move to the configured Testing column by name |
| `Kanban.Mirror.MoveToDeveloping` | kanban.go:216-218 | a move to the configured Developing column by name |
| `Kanban.ColumnWithId` | kanban.go:226-230 | -1 exactly when no column has the id; otherwise the first column with that id |
| `Kanban.IssueCard` | kanban.go:224-232 | the first card of the issue whose column id names a known column; earlier matching cards with unknown columns are skipped |
| `Kanban.IssueColumn` | kanban.go:220-235 | gives a column of the mirror whose id is the column id of some card of the issue; gives none only when no card of the issue resolves to a column |
| `Kanban.Mirror.GetIssueColumn` | kanban.go:220-235 | the nested scan returns the column of `IssueColumn`, or "the issue is not in the project" when it gives none |
| `Kanban.Mirror.UpdateKanbanMetadata` | kanban.go:133-170 | clears both lists before any fetch, then leaves exactly the board `Refresh` describes, partial contents on error included, and returns its error |
| `Kanban.LoadColumnsAgrees` | kanban.go:150-162 | loading columns without failure appends the concatenation of their stamped card listings; otherwise it reports the first failing listing |
| `Kanban.LoadProjectsAgrees` | kanban.go:144-167 | loading projects appends the reference board of the target projects, or reports the first failing listing |
| `Kanban.RefreshAgreesWithListing` | kanban.go:133-170 | a refresh succeeds iff every needed listing does; it then yields the cards (per target project and column, in order, stamped) and the columns of the listing, whatever was there before |
| `Kanban.ColumnsListingStamped` | kanban.go:150-159 | every card loaded for a list of columns carries the id of one of those columns |
| `Kanban.ProjectsListingConsistent` | kanban.go:144-167 | the reference board of the target projects has every card in one of its columns |
| `Kanban.RefreshConsistent` | kanban.go:137-169 | after a successful refresh every card's column id names a column in the mirror |
| `Kanban.ConsistentResolves` | kanban.go:220-235 | on such a consistent mirror every issue that has a card resolves to a column |
| `Kanban.PartialRefreshInconsistent` | kanban.go:150-165 | one board (one project, two columns, the second card listing failing) on which the failed refresh keeps the first column's card, stamped, but no column, so the mirror lacks that card's column |
| `Webhooks.HandleEvent` | main.go:65-140 | handling an event changes the mirror and sends commands exactly as `Step` decides; the handler has no failure path |
| `Webhooks.HandleIssuesEvent` | main.go:66-107 | the issue branch: the filter, the column lookup, then at most one of the two moves, with any error dropped |
| `Webhooks.HandleProjectCardEvent` | main.go:108-139 | the card branch: other organisations are ignored; otherwise the named card operation runs and its error is dropped |
| `Webhooks.IgnoresOtherIssueActions` | main.go:75-78 | issue actions other than "assigned"/"unassigned" cause no mirror change and no move |
| `Webhooks.MoveOnlyWhenEligible` | main.go:85-92 | a move command goes out only for an assignment change on an open issue with exactly one assignee whose column resolves; an issue event that sends nothing leaves the mirror unchanged |
| `Webhooks.Routing` | main.go:94-106 | first match wins, both directions: QA assignee in Developing leads to Testing; otherwise Dev assignee in Testing leads to Developing; otherwise nothing |
| `Webhooks.MoveBetweenColumns` | main.go:94-106 | a rule that fires sends exactly one command, for the issue's first card outside the target column; an accepted move leaves the issue in the target column, a rejected one changes nothing |
| `Webhooks.RuleDevelopingToTesting` | main.go:94-99 | end to end: a QA assignee on an issue in Developing sends one move to Testing, and on success the mirror shows the issue in Testing |
| `Webhooks.RuleTestingToDeveloping` | main.go:100-105 | end to end: a Dev assignee on an issue in Testing sends one move to Developing, and on success the mirror shows the issue in Developing |
| `Webhooks.NoMoveWithoutTeam` | main.go:94-106 | a non-QA assignee in Developing or a non-Dev assignee in Testing causes no move and no change |
| `Webhooks.ForeignCardEventsIgnored` | main.go:112-115 | project-card events from another organisation are ignored |
| `Webhooks.CardEventEffects` | main.go:119-139 | "created" and "moved" append, "deleted" removes, "converted" replaces; any other action does nothing; no card event sends a command |
| `Webhooks.MovedEventKeepsOldEntry` | main.go:134-138 | a "moved" event for a stored card adds a second entry with the same id; delete, convert and the column lookup still see the old one |

## Left out

- HTTP serving, payload signature validation, webhook parsing and the 400 response (main.go:43-63, 144-147): I/O and library calls. The model starts from a decoded `Event`.
- The GitHub App client setup and `init` (main.go:18-41): process setup. `PrepareKanbanMetadata` and `UpdateTeamsMetadata` are not part of this model.
- The pagination loops `getProjects`, `getProjectColumns` and `getColumnCards` (kanban.go:19-86): network I/O. `RemoteBoard` gives each listing already concatenated over its pages, or the error of the first failing page.
- The remote call in `moveCard` (kanban.go:172-184): network I/O. `RemoteBoard.move` gives its outcome for the card id and column id. The "top" position is not modelled.
- `cardsLock` and mutual exclusion (kanban.go:16 and each operation): concurrency. Every operation is a sequential, atomic method. This also hides that `moveIssueToColumn` reads the columns without holding the lock.
- Team membership (`CheckUserMemeberOfQATeam`, `CheckUserMemeberOfDevTeam`) and the configuration constants: they are defined outside the core. They are the `Teams` and `Config` parameters.
- The `errNotInTargetCol` comparisons (main.go:121-136): that error is defined outside the core and never returned by the mirror operations. Every error is dropped, as the logging path does.
- Logging, and the assignee list built only for logging (main.go:80-84).
- Pointer aliasing of cards: cards are value records. A column-id write through a pointer is an update at one index. Effects that act through shared pointers, such as a converted card object being mutated later, are not modelled.
- A nil issue state would make `*issue.State` panic (main.go:85), and a missing issue would make the range over `issue.Assignees` panic (main.go:81). The model always has an issue, and its state is a string. Absent card, column and URL fields read as the getters' defaults ("" and 0).
