/** Event handling of the webhook receiver: which decoded deliveries touch
    the board mirror, the two-rule transition policy for issue assignment
    changes, and the dispatch of project-card events to the mirror's card
    operations. Errors from the mirror are dropped here (the program only
    logs them), so handling an event never fails. */
module Webhooks {
  import opened Kanban

  /** The part of an issue the handler reads: its URL, which links it to
      cards, its state and its assignees' logins. */
  datatype Issue = Issue(url: string, state: string, assignees: seq<string>)

  /** A decoded webhook delivery. */
  datatype Event =
    | IssuesEvent(action: string, issue: Issue)
    | ProjectCardEvent(action: string, orgLogin: string, card: Card)
    | OtherEvent

  /** Team membership as the handler consults it. */
  datatype Teams = Teams(isQA: string -> bool, isDev: string -> bool)

  /** What an event asks of the mirror. */
  datatype Action =
    | NoAction
    | MoveToTesting(issueURL: string)
    | MoveToDeveloping(issueURL: string)
    | Append(card: Card)
    | Remove(card: Card)
    | Convert(card: Card)

  /** The mirror after an event and the move command sent, if any. */
  datatype Outcome = Outcome(board: Board, command: Option<MoveCommand>)

  /** An issue event that may lead to a move: an assignment change on an
      open issue that is left with exactly one assignee. */
  predicate Eligible(action: string, issue: Issue)
  {
    (action == "assigned" || action == "unassigned") && |issue.assignees| == 1 && issue.state == "open"
  }

  /** The transition policy, first rule first. */
  function Route(assignee: string, column: Column, issueURL: string, cfg: Config, teams: Teams): Action
  {
    if teams.isQA(assignee) && column.name == cfg.developingColumn then MoveToTesting(issueURL)
    else if teams.isDev(assignee) && column.name == cfg.testingColumn then MoveToDeveloping(issueURL)
    else NoAction
  }

  /** Card actions and the mirror operation each one calls. */
  function CardRoute(action: string, card: Card): Action
  {
    if action == "created" then Append(card)
    else if action == "deleted" then Remove(card)
    else if action == "converted" then Convert(card)
    else if action == "moved" then Append(card)
    else NoAction
  }

  /** The action an event asks for, given the mirror it is applied to. */
  function Decide(b: Board, ev: Event, cfg: Config, teams: Teams): Action
  {
    match ev
    case IssuesEvent(action, issue) =>
      var column := IssueColumn(b, issue.url);
      if !Eligible(action, issue) || column.None? then NoAction
      else Route(issue.assignees[0], column.value, issue.url, cfg, teams)
    case ProjectCardEvent(action, orgLogin, card) =>
      if orgLogin != cfg.orgName then NoAction else CardRoute(action, card)
    case OtherEvent => NoAction
  }

  /** The effect of an action on the mirror; failing operations leave it as it was. */
  function Apply(b: Board, a: Action, cfg: Config, remote: RemoteBoard): Outcome
  {
    match a
    case NoAction => Outcome(b, None)
    case MoveToTesting(url) =>
      var o := MovedByName(b, url, cfg.testingColumn, remote);
      Outcome(o.board, o.command)
    case MoveToDeveloping(url) =>
      var o := MovedByName(b, url, cfg.developingColumn, remote);
      Outcome(o.board, o.command)
    case Append(card) => Outcome(Board(b.cards + [card], b.columns), None)
    case Remove(card) =>
      var i := IndexOf(b.cards, card.id);
      Outcome(if i == -1 then b else Board(Removed(b.cards, i), b.columns), None)
    case Convert(card) =>
      var i := IndexOf(b.cards, card.id);
      Outcome(if i == -1 then b else Board(b.cards[i := card], b.columns), None)
  }

  /** Handling one event, as a function of the mirror before it. */
  function Step(b: Board, ev: Event, cfg: Config, teams: Teams, remote: RemoteBoard): Outcome
  {
    Apply(b, Decide(b, ev, cfg, teams), cfg, remote)
  }

  /** The event switch of the webhook handler, applied to the mirror. */
  method HandleEvent(mirror: Mirror, ev: Event, cfg: Config, teams: Teams, remote: RemoteBoard)
    returns (command: Option<MoveCommand>)
    modifies mirror
    ensures var o := Step(old(mirror.Snapshot()), ev, cfg, teams, remote);
      mirror.Snapshot() == o.board && command == o.command
  {
    match ev
    case IssuesEvent(action, issue) =>
      command := HandleIssuesEvent(mirror, action, issue, cfg, teams, remote);
    case ProjectCardEvent(action, orgLogin, card) =>
      HandleProjectCardEvent(mirror, action, orgLogin, card, cfg);
      command := None;
    case OtherEvent =>
      command := None;
  }

  /** The issue branch: filter, locate the issue, apply the first rule that fires. */
  method HandleIssuesEvent(mirror: Mirror, action: string, issue: Issue, cfg: Config, teams: Teams, remote: RemoteBoard)
    returns (command: Option<MoveCommand>)
    modifies mirror
    ensures var o := Step(old(mirror.Snapshot()), IssuesEvent(action, issue), cfg, teams, remote);
      mirror.Snapshot() == o.board && command == o.command
  {
    command := None;
    if action != "assigned" && action != "unassigned" {
      return;
    }
    if |issue.assignees| == 1 && issue.state == "open" {
      var assignee := issue.assignees[0];
      var column := mirror.GetIssueColumn(issue.url);
      if column.Err? {
        return;
      }
      var err;
      if teams.isQA(assignee) && column.value.name == cfg.developingColumn {
        err, command := mirror.MoveToTesting(issue.url, cfg, remote);
      } else if teams.isDev(assignee) && column.value.name == cfg.testingColumn {
        err, command := mirror.MoveToDeveloping(issue.url, cfg, remote);
      }
    }
  }

  /** The project-card branch: ignore other organisations, then call the
      card operation the action names; its error is dropped. */
  method HandleProjectCardEvent(mirror: Mirror, action: string, orgLogin: string, card: Card, cfg: Config)
    modifies mirror
    ensures forall teams: Teams, remote: RemoteBoard ::
      mirror.Snapshot() == Step(old(mirror.Snapshot()), ProjectCardEvent(action, orgLogin, card), cfg, teams, remote).board
  {
    if orgLogin != cfg.orgName {
      return;
    }
    var err;
    if action == "created" {
      mirror.AppendCard(card);
    } else if action == "deleted" {
      err := mirror.RemoveCard(card);
    } else if action == "converted" {
      err := mirror.ConvertCard(card);
    } else if action == "moved" {
      mirror.AppendCard(card);
    }
  }

  // ---------------------------------------------------------------------
  // Properties of the policy and the dispatch

  /** Issue events other than assignment changes leave the mirror alone and move nothing. */
  lemma IgnoresOtherIssueActions(b: Board, action: string, issue: Issue, cfg: Config, teams: Teams, remote: RemoteBoard)
    requires action != "assigned" && action != "unassigned"
    ensures Step(b, IssuesEvent(action, issue), cfg, teams, remote) == Outcome(b, None)
  {
  }

  /** A move command goes out only for an eligible issue event whose issue
      resolves to a column; an issue event that sends no command leaves the
      mirror unchanged. */
  lemma MoveOnlyWhenEligible(b: Board, ev: Event, cfg: Config, teams: Teams, remote: RemoteBoard)
    ensures var o := Step(b, ev, cfg, teams, remote);
      o.command.Some? ==>
        ev.IssuesEvent? && Eligible(ev.action, ev.issue) && IssueColumn(b, ev.issue.url).Some?
    ensures var o := Step(b, ev, cfg, teams, remote);
      ev.IssuesEvent? && o.command.None? ==> o.board == b
  {
    var a := Decide(b, ev, cfg, teams);
    match a
    case MoveToTesting(url) =>
      if ColumnNamed(b.columns, cfg.testingColumn) != -1 {
        MoveEffect(b, url, b.columns[ColumnNamed(b.columns, cfg.testingColumn)], remote);
      }
    case MoveToDeveloping(url) =>
      if ColumnNamed(b.columns, cfg.developingColumn) != -1 {
        MoveEffect(b, url, b.columns[ColumnNamed(b.columns, cfg.developingColumn)], remote);
      }
    case _ =>
  }

  /** The routing of an issue event, in both directions: it asks for a move
      to Testing exactly when the sole assignee is in QA and the issue's
      column is Developing; for a move to Developing exactly when that
      does not hold, the assignee is in Dev and the column is Testing; and
      for nothing otherwise. */
  lemma Routing(b: Board, action: string, issue: Issue, cfg: Config, teams: Teams)
    ensures var a := Decide(b, IssuesEvent(action, issue), cfg, teams);
      var col := IssueColumn(b, issue.url);
      && (a == MoveToTesting(issue.url) <==>
            Eligible(action, issue) && col.Some? &&
            teams.isQA(issue.assignees[0]) && col.value.name == cfg.developingColumn)
      && (a == MoveToDeveloping(issue.url) <==>
            Eligible(action, issue) && col.Some? &&
            !(teams.isQA(issue.assignees[0]) && col.value.name == cfg.developingColumn) &&
            teams.isDev(issue.assignees[0]) && col.value.name == cfg.testingColumn)
      && (a == NoAction || a == MoveToTesting(issue.url) || a == MoveToDeveloping(issue.url))
  {
  }

  /** No two columns share an id. */
  predicate DistinctColumnIds(columns: seq<Column>)
  {
    forall j, k :: 0 <= j < k < |columns| ==> columns[j].id != columns[k].id
  }

  /** The move half of the transition rules: when the issue sits in column
      `from` and the rule sends it to the column named `name`, exactly one
      command goes out, for the first card of the issue outside that
      column; if the service accepts it the issue then resolves to the new
      column, and if not the mirror is unchanged. */
  lemma MoveBetweenColumns(b: Board, url: string, from: Column, name: string, remote: RemoteBoard)
    requires DistinctColumnIds(b.columns)
    requires IssueColumn(b, url) == Some(from)
    requires from.name != name
    requires ColumnNamed(b.columns, name) != -1
    ensures var to := b.columns[ColumnNamed(b.columns, name)];
      var o := MovedByName(b, url, name, remote);
      var i := MoveTarget(b.cards, url, to.id);
      && i != -1
      && o.command == Some(MoveCommand(b.cards[i].id, to.id))
      && (remote.move(b.cards[i].id, to.id).None? ==> IssueColumn(o.board, url) == Some(to))
      && (remote.move(b.cards[i].id, to.id).Some? ==> o.board == b)
  {
    var p := ColumnNamed(b.columns, name);
    var to := b.columns[p];
    var k := IssueCard(b.cards, b.columns, url);
    var q := ColumnWithId(b.columns, b.cards[k].columnID);
    assert from == b.columns[q];
    assert q != p;
    assert from.id != to.id;
    assert Movable(b.cards[k], url, to.id);
    assert ColumnWithId(b.columns, to.id) == p;
    MoveEffect(b, url, to, remote);
    if remote.move(b.cards[MoveTarget(b.cards, url, to.id)].id, to.id).None? {
      MoveThenLocate(b, url, to, remote);
    }
  }

  /** Transition rule 1, end to end: a QA assignee on an issue in
      Developing sends one move command for its card to Testing, and an
      accepted move leaves the issue in Testing. */
  lemma RuleDevelopingToTesting(b: Board, action: string, issue: Issue, cfg: Config, teams: Teams, remote: RemoteBoard)
    requires DistinctColumnIds(b.columns)
    requires cfg.developingColumn != cfg.testingColumn
    requires Eligible(action, issue) && teams.isQA(issue.assignees[0])
    requires IssueColumn(b, issue.url).Some? && IssueColumn(b, issue.url).value.name == cfg.developingColumn
    requires ColumnNamed(b.columns, cfg.testingColumn) != -1
    ensures var testing := b.columns[ColumnNamed(b.columns, cfg.testingColumn)];
      var o := Step(b, IssuesEvent(action, issue), cfg, teams, remote);
      var i := MoveTarget(b.cards, issue.url, testing.id);
      && i != -1
      && o.command == Some(MoveCommand(b.cards[i].id, testing.id))
      && (remote.move(b.cards[i].id, testing.id).None? ==> IssueColumn(o.board, issue.url) == Some(testing))
      && (remote.move(b.cards[i].id, testing.id).Some? ==> o.board == b)
  {
    MoveBetweenColumns(b, issue.url, IssueColumn(b, issue.url).value, cfg.testingColumn, remote);
  }

  /** Transition rule 2, end to end: a Dev assignee (not triggering rule 1)
      on an issue in Testing sends one move command for its card to
      Developing, and an accepted move leaves the issue in Developing. */
  lemma RuleTestingToDeveloping(b: Board, action: string, issue: Issue, cfg: Config, teams: Teams, remote: RemoteBoard)
    requires DistinctColumnIds(b.columns)
    requires cfg.developingColumn != cfg.testingColumn
    requires Eligible(action, issue) && teams.isDev(issue.assignees[0])
    requires IssueColumn(b, issue.url).Some? && IssueColumn(b, issue.url).value.name == cfg.testingColumn
    requires ColumnNamed(b.columns, cfg.developingColumn) != -1
    ensures var developing := b.columns[ColumnNamed(b.columns, cfg.developingColumn)];
      var o := Step(b, IssuesEvent(action, issue), cfg, teams, remote);
      var i := MoveTarget(b.cards, issue.url, developing.id);
      && i != -1
      && o.command == Some(MoveCommand(b.cards[i].id, developing.id))
      && (remote.move(b.cards[i].id, developing.id).None? ==> IssueColumn(o.board, issue.url) == Some(developing))
      && (remote.move(b.cards[i].id, developing.id).Some? ==> o.board == b)
  {
    MoveBetweenColumns(b, issue.url, IssueColumn(b, issue.url).value, cfg.developingColumn, remote);
  }

  /** A non-QA assignee on an issue in Developing moves nothing, and so
      does a non-Dev assignee on an issue in Testing. */
  lemma NoMoveWithoutTeam(b: Board, action: string, issue: Issue, cfg: Config, teams: Teams, remote: RemoteBoard)
    requires cfg.developingColumn != cfg.testingColumn
    requires Eligible(action, issue) && IssueColumn(b, issue.url).Some?
    requires var name := IssueColumn(b, issue.url).value.name;
      (name == cfg.developingColumn && !teams.isQA(issue.assignees[0])) ||
      (name == cfg.testingColumn && !teams.isDev(issue.assignees[0]))
    ensures Step(b, IssuesEvent(action, issue), cfg, teams, remote) == Outcome(b, None)
  {
  }

  /** Card events from another organisation are ignored. */
  lemma ForeignCardEventsIgnored(b: Board, action: string, org: string, card: Card, cfg: Config, teams: Teams, remote: RemoteBoard)
    requires org != cfg.orgName
    ensures Step(b, ProjectCardEvent(action, org, card), cfg, teams, remote) == Outcome(b, None)
  {
  }

  /** Card events of the target organisation: "created" and "moved" append
      the card, "deleted" removes the first entry with its id, "converted"
      replaces it, any other action does nothing; none sends a command or
      touches the columns. */
  lemma CardEventEffects(b: Board, action: string, card: Card, cfg: Config, teams: Teams, remote: RemoteBoard)
    ensures var o := Step(b, ProjectCardEvent(action, cfg.orgName, card), cfg, teams, remote);
      var i := IndexOf(b.cards, card.id);
      && o.command == None
      && o.board.columns == b.columns
      && (action == "created" || action == "moved" ==> o.board.cards == b.cards + [card])
      && (action == "deleted" ==> o.board.cards == if i == -1 then b.cards else Removed(b.cards, i))
      && (action == "converted" ==> o.board.cards == if i == -1 then b.cards else b.cards[i := card])
      && (action != "created" && action != "moved" && action != "deleted" && action != "converted" ==> o.board == b)
  {
  }

  lemma {:induction false} IssueCardAppend(cards: seq<Card>, columns: seq<Column>, url: string, c: Card)
    requires IssueCard(cards, columns, url) != -1
    ensures IssueCard(cards + [c], columns, url) == IssueCard(cards, columns, url)
  {
    var s := cards + [c];
    var k := IssueCard(cards, columns, url);
    assert forall j :: 0 <= j < |cards| ==> s[j] == cards[j];
    assert Resolves(s[k], columns, url);
  }

  /** A "moved" event for a card the mirror already holds appends a second
      entry with the same id: later "deleted" and "converted" events still
      act on the old entry, and an issue that resolved to a column before
      still resolves to the same column, whatever column the event names. */
  lemma MovedEventKeepsOldEntry(b: Board, card: Card, cfg: Config, teams: Teams, remote: RemoteBoard)
    requires IndexOf(b.cards, card.id) != -1
    ensures var o := Step(b, ProjectCardEvent("moved", cfg.orgName, card), cfg, teams, remote);
      && |o.board.cards| == |b.cards| + 1
      && IndexOf(o.board.cards, card.id) == IndexOf(b.cards, card.id)
      && o.board.cards[|b.cards|] == card
      && (IssueColumn(b, card.contentURL).Some? ==>
            IssueColumn(o.board, card.contentURL) == IssueColumn(b, card.contentURL))
  {
    IndexOfAppend(b.cards, card);
    if IssueColumn(b, card.contentURL).Some? {
      IssueCardAppend(b.cards, b.columns, card.contentURL, card);
    }
  }
}
