/** The in-memory mirror of one project board: the cards and columns the
    webhook receiver keeps, the operations that mutate them, the full
    refresh from the board service, and the policy-driven card move.

    Cards and columns are value records; the two global slices of the
    program are the two `seq` fields of class `Mirror`. Calls into the
    board service are inputs: a `RemoteBoard` gives the listings the
    service would return and the outcome of a move request. */
module Kanban {

  datatype Option<T> = None | Some(value: T)

  /** Errors the mirror reports. `Remote` stands for an error returned by
      the board service, passed through unchanged. */
  datatype Error =
    | CardNotInProject                // "card's not in project"
    | IssueNotInProject               // "the issue is not in the project"
    | NoColumnNamed(name: string)     // "no column named ... in project ..."
    | Remote(reason: string)

  datatype Result<T> = Ok(value: T) | Err(error: Error)

  /** A board card. A missing content URL reads as "" and a missing column
      id as 0, as the service's getters return them. */
  datatype Card = Card(id: int, contentURL: string, columnID: int)

  datatype Column = Column(id: int, name: string)

  datatype Project = Project(id: int, name: string)

  /** The mirror's state as a value. */
  datatype Board = Board(cards: seq<Card>, columns: seq<Column>)

  /** A request sent to the board service: put the card at the top of the column. */
  datatype MoveCommand = MoveCommand(cardID: int, columnID: int)

  /** The configuration the core reads: target organisation, target
      project and the two columns the transition policy knows by name. */
  datatype Config = Config(
    orgName: string,
    targetProject: string,
    developingColumn: string,
    testingColumn: string)

  /** What the board service answers: the (already concatenated) paginated
      listings of the organisation's projects, of a project's columns by
      project id and of a column's cards by column id, and the outcome of a
      move request for a card id and a column id (None when it succeeds). */
  datatype RemoteBoard = RemoteBoard(
    projects: Result<seq<Project>>,
    columnsOf: int -> Result<seq<Column>>,
    cardsOf: int -> Result<seq<Card>>,
    move: (int, int) -> Option<Error>)

  // ---------------------------------------------------------------------
  // Lookups over the card and column lists

  /** Position of the first card with the given id, or -1 when there is none. */
  function IndexOf(cards: seq<Card>, id: int): (r: int)
    ensures r == -1 <==> forall k :: 0 <= k < |cards| ==> cards[k].id != id
    ensures r != -1 ==> 0 <= r < |cards| && cards[r].id == id
    ensures r != -1 ==> forall k :: 0 <= k < r ==> cards[k].id != id
    decreases |cards|
  {
    if cards == [] then -1
    else if cards[0].id == id then 0
    else
      var r := IndexOf(cards[1..], id);
      if r == -1 then -1 else r + 1
  }

  /** A card the move scan picks: it carries the issue and is not yet in the target column. */
  predicate Movable(c: Card, url: string, columnID: int)
  {
    c.contentURL == url && c.columnID != columnID
  }

  /** Position of the first movable card, or -1 when there is none. */
  function MoveTarget(cards: seq<Card>, url: string, columnID: int): (r: int)
    ensures r == -1 <==> forall k :: 0 <= k < |cards| ==> !Movable(cards[k], url, columnID)
    ensures r != -1 ==> 0 <= r < |cards| && Movable(cards[r], url, columnID)
    ensures r != -1 ==> forall k :: 0 <= k < r ==> !Movable(cards[k], url, columnID)
    decreases |cards|
  {
    if cards == [] then -1
    else if Movable(cards[0], url, columnID) then 0
    else
      var r := MoveTarget(cards[1..], url, columnID);
      if r == -1 then -1 else r + 1
  }

  /** Position of the first column with the given id, or -1. */
  function ColumnWithId(columns: seq<Column>, id: int): (r: int)
    ensures r == -1 <==> forall k :: 0 <= k < |columns| ==> columns[k].id != id
    ensures r != -1 ==> 0 <= r < |columns| && columns[r].id == id
    ensures r != -1 ==> forall k :: 0 <= k < r ==> columns[k].id != id
    decreases |columns|
  {
    if columns == [] then -1
    else if columns[0].id == id then 0
    else
      var r := ColumnWithId(columns[1..], id);
      if r == -1 then -1 else r + 1
  }

  /** Position of the first column with the given name, or -1. */
  function ColumnNamed(columns: seq<Column>, name: string): (r: int)
    ensures r == -1 <==> forall k :: 0 <= k < |columns| ==> columns[k].name != name
    ensures r != -1 ==> 0 <= r < |columns| && columns[r].name == name
    ensures r != -1 ==> forall k :: 0 <= k < r ==> columns[k].name != name
    decreases |columns|
  {
    if columns == [] then -1
    else if columns[0].name == name then 0
    else
      var r := ColumnNamed(columns[1..], name);
      if r == -1 then -1 else r + 1
  }

  /** A card that carries the issue and whose column id names a known column. */
  predicate Resolves(c: Card, columns: seq<Column>, url: string)
  {
    c.contentURL == url && ColumnWithId(columns, c.columnID) != -1
  }

  /** Position of the first card that carries the issue and resolves to a column, or -1. */
  function IssueCard(cards: seq<Card>, columns: seq<Column>, url: string): (r: int)
    ensures r == -1 <==> forall k :: 0 <= k < |cards| ==> !Resolves(cards[k], columns, url)
    ensures r != -1 ==> 0 <= r < |cards| && Resolves(cards[r], columns, url)
    ensures r != -1 ==> forall k :: 0 <= k < r ==> !Resolves(cards[k], columns, url)
    decreases |cards|
  {
    if cards == [] then -1
    else if Resolves(cards[0], columns, url) then 0
    else
      var r := IssueCard(cards[1..], columns, url);
      if r == -1 then -1 else r + 1
  }

  /** The column an issue sits in: that of the first card carrying the issue
      whose column is known; cards whose column is unknown are skipped. */
  function IssueColumn(b: Board, url: string): (r: Option<Column>)
    ensures r.None? <==> forall k :: 0 <= k < |b.cards| && b.cards[k].contentURL == url ==>
                           ColumnWithId(b.columns, b.cards[k].columnID) == -1
    ensures r.Some? ==> r.value in b.columns &&
                        exists k :: 0 <= k < |b.cards| && b.cards[k].contentURL == url &&
                                    b.cards[k].columnID == r.value.id
  {
    var k := IssueCard(b.cards, b.columns, url);
    if k == -1 then None else Some(b.columns[ColumnWithId(b.columns, b.cards[k].columnID)])
  }

  // ---------------------------------------------------------------------
  // Card list updates

  /** The card list after the entry at i is overwritten by the last entry
      and the last slot is dropped. */
  function Removed(cards: seq<Card>, i: nat): (r: seq<Card>)
    requires i < |cards|
    ensures |r| == |cards| - 1
    ensures i < |r| ==> r[i] == cards[|cards| - 1]
    ensures forall k :: 0 <= k < |r| && k != i ==> r[k] == cards[k]
  {
    cards[i := cards[|cards| - 1]][..|cards| - 1]
  }

  /** Swap-with-last removal takes away exactly the one entry, as a multiset. */
  lemma RemovedMultiset(cards: seq<Card>, i: nat)
    requires i < |cards|
    ensures multiset(Removed(cards, i)) == multiset(cards) - multiset{cards[i]}
  {
    var n := |cards| - 1;
    if i == n {
      assert cards == cards[..n] + [cards[n]];
      assert Removed(cards, i) == cards[..n];
    } else {
      var front, back := cards[..i], cards[i + 1..n];
      assert cards == front + [cards[i]] + back + [cards[n]];
      assert Removed(cards, i) == front + [cards[n]] + back;
    }
  }

  /** IndexOf is unaffected by appending once the id is present, and
      finds the appended card when it is not. */
  lemma {:induction false} IndexOfAppend(cards: seq<Card>, c: Card)
    ensures IndexOf(cards, c.id) != -1 ==> IndexOf(cards + [c], c.id) == IndexOf(cards, c.id)
    ensures IndexOf(cards, c.id) == -1 ==> IndexOf(cards + [c], c.id) == |cards|
  {
    var s := cards + [c];
    assert forall k :: 0 <= k < |cards| ==> s[k] == cards[k];
    assert s[|cards|] == c;
    if IndexOf(cards, c.id) == -1 {
      assert IndexOf(s, c.id) != -1;
    }
  }

  /** For a card whose id is not stored, appending it and then removing its
      id gives back exactly the original list. */
  lemma AppendThenRemove(cards: seq<Card>, c: Card)
    requires IndexOf(cards, c.id) == -1
    ensures IndexOf(cards + [c], c.id) == |cards|
    ensures Removed(cards + [c], |cards|) == cards
  {
    IndexOfAppend(cards, c);
    assert Removed(cards + [c], |cards|) == (cards + [c])[..|cards|];
  }

  /** After a conversion the card is still found at the same position. */
  lemma ConvertedFoundInPlace(cards: seq<Card>, c: Card)
    requires IndexOf(cards, c.id) != -1
    ensures IndexOf(cards[IndexOf(cards, c.id) := c], c.id) == IndexOf(cards, c.id)
  {
    var i := IndexOf(cards, c.id);
    var s := cards[i := c];
    assert forall k :: 0 <= k < i ==> s[k] == cards[k];
    assert s[i].id == c.id;
  }

  // ---------------------------------------------------------------------
  // Moving an issue's card

  /** The result of a move attempt: the new board, the error returned and
      the command sent to the board service, if any. */
  datatype MoveOutcome = MoveOutcome(board: Board, err: Option<Error>, command: Option<MoveCommand>)

  /** Moving the issue's card to a given column: the first movable card is
      sent to the service; its column id is stamped only if the service
      accepts. Without a movable card nothing is sent. */
  function Moved(b: Board, url: string, column: Column, remote: RemoteBoard): MoveOutcome
  {
    var i := MoveTarget(b.cards, url, column.id);
    if i == -1 then MoveOutcome(b, Some(IssueNotInProject), None)
    else
      var card := b.cards[i];
      var err := remote.move(card.id, column.id);
      var cards := if err.None? then b.cards[i := card.(columnID := column.id)] else b.cards;
      MoveOutcome(Board(cards, b.columns), err, Some(MoveCommand(card.id, column.id)))
  }

  /** Moving the issue's card to the first column with the given name. */
  function MovedByName(b: Board, url: string, name: string, remote: RemoteBoard): MoveOutcome
  {
    var j := ColumnNamed(b.columns, name);
    if j == -1 then MoveOutcome(b, Some(NoColumnNamed(name)), None)
    else Moved(b, url, b.columns[j], remote)
  }

  /** What a move does to the board: on success only the picked card's
      column id changes, to the target's id; on any error nothing changes;
      the column list never changes; a command goes out exactly when a
      movable card exists. */
  lemma MoveEffect(b: Board, url: string, column: Column, remote: RemoteBoard)
    ensures var o := Moved(b, url, column, remote);
      var i := MoveTarget(b.cards, url, column.id);
      && o.board.columns == b.columns
      && |o.board.cards| == |b.cards|
      && (o.command.Some? <==> i != -1)
      && (i == -1 ==> o.err == Some(IssueNotInProject))
      && (i != -1 ==> o.err == remote.move(b.cards[i].id, column.id))
      && (o.command.Some? ==> o.command.value == MoveCommand(b.cards[i].id, column.id))
      && (o.err.Some? ==> o.board == b)
      && (o.err.None? ==>
            && i != -1
            && o.board.cards[i] == b.cards[i].(columnID := column.id)
            && (forall k :: 0 <= k < |b.cards| && k != i ==> o.board.cards[k] == b.cards[k]))
  {
  }

  /** A card already in the target column is not moved again: when every
      card of the issue sits there, the move fails with "not in the
      project" and sends nothing. */
  lemma AlreadyInColumn(b: Board, url: string, column: Column, remote: RemoteBoard)
    requires forall k :: 0 <= k < |b.cards| && b.cards[k].contentURL == url ==> b.cards[k].columnID == column.id
    ensures Moved(b, url, column, remote) == MoveOutcome(b, Some(IssueNotInProject), None)
  {
    assert forall k :: 0 <= k < |b.cards| ==> !Movable(b.cards[k], url, column.id);
  }

  /** After a successful move the issue resolves to the target column,
      provided the target is the first column carrying its id. */
  lemma MoveThenLocate(b: Board, url: string, column: Column, remote: RemoteBoard)
    requires ColumnWithId(b.columns, column.id) != -1
    requires b.columns[ColumnWithId(b.columns, column.id)] == column
    requires Moved(b, url, column, remote).err.None?
    ensures IssueColumn(Moved(b, url, column, remote).board, url) == Some(column)
  {
    var i := MoveTarget(b.cards, url, column.id);
    var after := Moved(b, url, column, remote).board;
    assert after.cards == b.cards[i := b.cards[i].(columnID := column.id)];
    assert after.columns == b.columns;
    assert Resolves(after.cards[i], after.columns, url);
    var k := IssueCard(after.cards, after.columns, url);
    assert k != -1 && k <= i;
    if k < i {
      assert after.cards[k] == b.cards[k];
      assert !Movable(b.cards[k], url, column.id);
    }
    assert after.cards[k].columnID == column.id;
  }

  // ---------------------------------------------------------------------
  // The full refresh

  /** Every card of a listing with its column id set to the column it was listed under. */
  function Stamped(cs: seq<Card>, columnID: int): seq<Card>
  {
    seq(|cs|, k requires 0 <= k < |cs| => cs[k].(columnID := columnID))
  }

  datatype CardsLoaded = CardsLoaded(cards: seq<Card>, err: Option<Error>)

  datatype Loaded = Loaded(board: Board, err: Option<Error>)

  /** Loading the cards of a project's columns in order onto `acc`; a
      failing card listing stops the load with what was appended so far. */
  function LoadColumns(cols: seq<Column>, cardsOf: int -> Result<seq<Card>>, acc: seq<Card>): CardsLoaded
    decreases |cols|
  {
    if cols == [] then CardsLoaded(acc, None)
    else match cardsOf(cols[0].id)
      case Err(e) => CardsLoaded(acc, Some(e))
      case Ok(cs) => LoadColumns(cols[1..], cardsOf, acc + Stamped(cs, cols[0].id))
  }

  /** Loading every project named `target`, in listing order, onto `b`: its
      columns' cards first, then its columns. A failing listing stops the
      load with the board built so far. */
  function LoadProjects(ps: seq<Project>, target: string, remote: RemoteBoard, b: Board): Loaded
    decreases |ps|
  {
    if ps == [] then Loaded(b, None)
    else if ps[0].name != target then LoadProjects(ps[1..], target, remote, b)
    else match remote.columnsOf(ps[0].id)
      case Err(e) => Loaded(b, Some(e))
      case Ok(cols) =>
        var loaded := LoadColumns(cols, remote.cardsOf, b.cards);
        if loaded.err.Some? then Loaded(Board(loaded.cards, b.columns), loaded.err)
        else LoadProjects(ps[1..], target, remote, Board(loaded.cards, b.columns + cols))
  }

  /** The mirror after a refresh, starting from an empty board, together
      with the error that stopped it, if any. */
  function Refresh(target: string, remote: RemoteBoard): Loaded
  {
    match remote.projects
    case Err(e) => Loaded(Board([], []), Some(e))
    case Ok(ps) => LoadProjects(ps, target, remote, Board([], []))
  }

  /** Reference definition of the board: the cards of the given columns,
      stamped and concatenated in order, or the first listing error. */
  function ColumnsListing(cols: seq<Column>, cardsOf: int -> Result<seq<Card>>): Result<seq<Card>>
    decreases |cols|
  {
    if cols == [] then Ok([])
    else match cardsOf(cols[0].id)
      case Err(e) => Err(e)
      case Ok(cs) =>
        match ColumnsListing(cols[1..], cardsOf)
        case Err(e) => Err(e)
        case Ok(rest) => Ok(Stamped(cs, cols[0].id) + rest)
  }

  /** Reference definition of the board over all projects named `target`. */
  function ProjectsListing(ps: seq<Project>, target: string, remote: RemoteBoard): Result<Board>
    decreases |ps|
  {
    if ps == [] then Ok(Board([], []))
    else if ps[0].name != target then ProjectsListing(ps[1..], target, remote)
    else match remote.columnsOf(ps[0].id)
      case Err(e) => Err(e)
      case Ok(cols) =>
        match ColumnsListing(cols, remote.cardsOf)
        case Err(e) => Err(e)
        case Ok(cs) =>
          match ProjectsListing(ps[1..], target, remote)
          case Err(e) => Err(e)
          case Ok(rest) => Ok(Board(cs + rest.cards, cols + rest.columns))
  }

  /** Reference definition of the whole remote board as the service lists it. */
  function Listing(target: string, remote: RemoteBoard): Result<Board>
  {
    match remote.projects
    case Err(e) => Err(e)
    case Ok(ps) => ProjectsListing(ps, target, remote)
  }

  lemma {:induction false} LoadColumnsAgrees(cols: seq<Column>, cardsOf: int -> Result<seq<Card>>, acc: seq<Card>)
    ensures var l := LoadColumns(cols, cardsOf, acc);
      match ColumnsListing(cols, cardsOf)
      case Ok(v) => l.err.None? && l.cards == acc + v
      case Err(e) => l.err == Some(e)
    decreases |cols|
  {
    if cols != [] {
      match cardsOf(cols[0].id)
      case Err(e) =>
      case Ok(cs) =>
        var acc' := acc + Stamped(cs, cols[0].id);
        LoadColumnsAgrees(cols[1..], cardsOf, acc');
        match ColumnsListing(cols[1..], cardsOf)
        case Err(e) =>
        case Ok(rest) =>
          assert acc' + rest == acc + (Stamped(cs, cols[0].id) + rest);
    }
  }

  lemma {:induction false} LoadProjectsAgrees(ps: seq<Project>, target: string, remote: RemoteBoard, b: Board)
    ensures var l := LoadProjects(ps, target, remote, b);
      match ProjectsListing(ps, target, remote)
      case Ok(v) => l.err.None? && l.board == Board(b.cards + v.cards, b.columns + v.columns)
      case Err(e) => l.err == Some(e)
    decreases |ps|
  {
    if ps == [] {
      assert b.cards + [] == b.cards && b.columns + [] == b.columns;
    } else if ps[0].name != target {
      LoadProjectsAgrees(ps[1..], target, remote, b);
    } else {
      match remote.columnsOf(ps[0].id)
      case Err(e) =>
      case Ok(cols) =>
        LoadColumnsAgrees(cols, remote.cardsOf, b.cards);
        var loaded := LoadColumns(cols, remote.cardsOf, b.cards);
        match ColumnsListing(cols, remote.cardsOf)
        case Err(e) =>
        case Ok(cs) =>
          var b' := Board(loaded.cards, b.columns + cols);
          LoadProjectsAgrees(ps[1..], target, remote, b');
          match ProjectsListing(ps[1..], target, remote)
          case Err(e) =>
          case Ok(rest) =>
            assert b'.cards + rest.cards == b.cards + (cs + rest.cards);
            assert b'.columns + rest.columns == b.columns + (cols + rest.columns);
    }
  }

  /** A refresh succeeds exactly when every listing it needs succeeds; it
      then yields the reference board whatever the mirror held before, and
      otherwise reports the first listing error. */
  lemma RefreshAgreesWithListing(target: string, remote: RemoteBoard)
    ensures Refresh(target, remote).err.None? <==> Listing(target, remote).Ok?
    ensures Listing(target, remote).Ok? ==> Refresh(target, remote).board == Listing(target, remote).value
    ensures Listing(target, remote).Err? ==> Refresh(target, remote).err == Some(Listing(target, remote).error)
  {
    match remote.projects
    case Err(e) =>
    case Ok(ps) =>
      LoadProjectsAgrees(ps, target, remote, Board([], []));
      match ProjectsListing(ps, target, remote)
      case Err(e) =>
      case Ok(v) =>
        assert [] + v.cards == v.cards && [] + v.columns == v.columns;
  }

  /** Every card's column id names a column of the board. */
  predicate Consistent(b: Board)
  {
    forall k :: 0 <= k < |b.cards| ==> ColumnWithId(b.columns, b.cards[k].columnID) != -1
  }

  lemma ColumnWithIdExtend(cols: seq<Column>, more: seq<Column>, id: int)
    requires ColumnWithId(cols, id) != -1
    ensures ColumnWithId(cols + more, id) != -1 && ColumnWithId(more + cols, id) != -1
  {
    var j := ColumnWithId(cols, id);
    assert (cols + more)[j].id == id;
    assert (more + cols)[|more| + j].id == id;
  }

  lemma {:induction false} ColumnsListingStamped(cols: seq<Column>, cardsOf: int -> Result<seq<Card>>)
    requires ColumnsListing(cols, cardsOf).Ok?
    ensures forall k :: 0 <= k < |ColumnsListing(cols, cardsOf).value| ==>
              ColumnWithId(cols, ColumnsListing(cols, cardsOf).value[k].columnID) != -1
    decreases |cols|
  {
    if cols != [] {
      var cs := cardsOf(cols[0].id).value;
      var rest := ColumnsListing(cols[1..], cardsOf).value;
      ColumnsListingStamped(cols[1..], cardsOf);
      var v := Stamped(cs, cols[0].id) + rest;
      forall k | 0 <= k < |v| ensures ColumnWithId(cols, v[k].columnID) != -1 {
        if k < |cs| {
          assert v[k].columnID == cols[0].id;
        } else {
          assert v[k] == rest[k - |cs|];
          ColumnWithIdExtend(cols[1..], [cols[0]], v[k].columnID);
          assert [cols[0]] + cols[1..] == cols;
        }
      }
    }
  }

  lemma {:induction false} ProjectsListingConsistent(ps: seq<Project>, target: string, remote: RemoteBoard)
    requires ProjectsListing(ps, target, remote).Ok?
    ensures Consistent(ProjectsListing(ps, target, remote).value)
    decreases |ps|
  {
    if ps != [] && ps[0].name != target {
      ProjectsListingConsistent(ps[1..], target, remote);
    } else if ps != [] {
      var cols := remote.columnsOf(ps[0].id).value;
      var cs := ColumnsListing(cols, remote.cardsOf).value;
      var rest := ProjectsListing(ps[1..], target, remote).value;
      ColumnsListingStamped(cols, remote.cardsOf);
      ProjectsListingConsistent(ps[1..], target, remote);
      var v := Board(cs + rest.cards, cols + rest.columns);
      forall k | 0 <= k < |v.cards| ensures ColumnWithId(v.columns, v.cards[k].columnID) != -1 {
        if k < |cs| {
          ColumnWithIdExtend(cols, rest.columns, cs[k].columnID);
        } else {
          assert v.cards[k] == rest.cards[k - |cs|];
          ColumnWithIdExtend(rest.columns, cols, v.cards[k].columnID);
        }
      }
    }
  }

  /** After a successful refresh every card sits in a column the mirror knows. */
  lemma RefreshConsistent(target: string, remote: RemoteBoard)
    requires Refresh(target, remote).err.None?
    ensures Consistent(Refresh(target, remote).board)
  {
    RefreshAgreesWithListing(target, remote);
    ProjectsListingConsistent(remote.projects.value, target, remote);
  }

  /** On a consistent board every issue that has a card resolves to a column. */
  lemma ConsistentResolves(b: Board, url: string, k: nat)
    requires Consistent(b)
    requires k < |b.cards| && b.cards[k].contentURL == url
    ensures IssueColumn(b, url).Some?
  {
    assert Resolves(b.cards[k], b.columns, url);
  }

  /** One board on which a refresh that fails part-way leaves a card whose
      column the mirror lacks: one project with two columns, where the
      first column's card listing succeeds and the second's fails, keeps
      the first column's card but none of the project's columns. */
  lemma PartialRefreshInconsistent(remote: RemoteBoard, e: Error)
    requires remote.projects == Ok([Project(7, "Board")])
    requires remote.columnsOf(7) == Ok([Column(1, "Developing"), Column(2, "Testing")])
    requires remote.cardsOf(1) == Ok([Card(10, "u", 0)])
    requires remote.cardsOf(2) == Err(e)
    ensures Refresh("Board", remote) == Loaded(Board([Card(10, "u", 1)], []), Some(e))
    ensures !Consistent(Refresh("Board", remote).board)
  {
    var cols := [Column(1, "Developing"), Column(2, "Testing")];
    assert Stamped([Card(10, "u", 0)], 1) == [Card(10, "u", 1)];
    assert cols[1..] == [Column(2, "Testing")];
    assert LoadColumns(cols, remote.cardsOf, []) == CardsLoaded([Card(10, "u", 1)], Some(e));
    var board := Refresh("Board", remote).board;
    assert board.cards[0].columnID == 1 && board.columns == [];
    assert ColumnWithId(board.columns, board.cards[0].columnID) == -1;
  }

  // ---------------------------------------------------------------------
  // The mirror

  class Mirror {
    var cards: seq<Card>
    var columns: seq<Column>

    constructor ()
      ensures cards == [] && columns == []
    {
      cards := [];
      columns := [];
    }

    function Snapshot(): Board
      reads this
    {
      Board(cards, columns)
    }

    /** The first position holding a card with the given card's id, or -1. */
    method FindCard(card: Card) returns (i: int)
      ensures i == IndexOf(cards, card.id)
      ensures i == -1 <==> forall k :: 0 <= k < |cards| ==> cards[k].id != card.id
    {
      i := 0;
      while i < |cards|
        invariant 0 <= i <= |cards|
        invariant forall k :: 0 <= k < i ==> cards[k].id != card.id
      {
        if cards[i].id == card.id {
          return;
        }
        i := i + 1;
      }
      i := -1;
    }

    /** Adds the card at the end; there is no uniqueness check and no error. */
    method AppendCard(card: Card)
      modifies this
      ensures cards == old(cards) + [card]
      ensures columns == old(columns)
    {
      cards := cards + [card];
    }

    /** Removes the first card with the given card's id by moving the last
        card into its slot and truncating. */
    method RemoveCard(card: Card) returns (err: Option<Error>)
      modifies this
      ensures columns == old(columns)
      ensures var i := IndexOf(old(cards), card.id);
        if i == -1 then err == Some(CardNotInProject) && cards == old(cards)
        else err.None? && cards == Removed(old(cards), i) &&
             multiset(cards) == multiset(old(cards)) - multiset{old(cards)[i]}
    {
      var index := FindCard(card);
      if index == -1 {
        return Some(CardNotInProject);
      }
      RemovedMultiset(cards, index);
      var last := |cards| - 1;
      cards := cards[index := cards[last]];
      cards := cards[..last];
      err := None;
    }

    /** Replaces the first card with the given card's id by the given card. */
    method ConvertCard(card: Card) returns (err: Option<Error>)
      modifies this
      ensures columns == old(columns)
      ensures var i := IndexOf(old(cards), card.id);
        if i == -1 then err == Some(CardNotInProject) && cards == old(cards)
        else err.None? && cards == old(cards)[i := card]
    {
      var index := FindCard(card);
      if index == -1 {
        return Some(CardNotInProject);
      }
      cards := cards[index := card];
      err := None;
    }

    /** Rebuilds the mirror from the service's listings: both lists are
        cleared first, then every project named as configured contributes
        its columns' cards, stamped with their column's id, and then its
        columns. The first failing listing ends the refresh with what was
        built so far. */
    method UpdateKanbanMetadata(cfg: Config, remote: RemoteBoard) returns (err: Option<Error>)
      modifies this
      ensures Snapshot() == Refresh(cfg.targetProject, remote).board
      ensures err == Refresh(cfg.targetProject, remote).err
      ensures remote.projects.Err? ==> cards == [] && columns == []
    {
      cards := [];
      columns := [];
      if remote.projects.Err? {
        return Some(remote.projects.error);
      }
      var projects := remote.projects.value;
      var target := cfg.targetProject;
      var i := 0;
      while i < |projects|
        invariant 0 <= i <= |projects|
        invariant LoadProjects(projects[i..], target, remote, Snapshot()) == Refresh(target, remote)
      {
        var pro := projects[i];
        assert projects[i..][1..] == projects[i + 1..];
        if pro.name == target {
          var listed := remote.columnsOf(pro.id);
          if listed.Err? {
            return Some(listed.error);
          }
          var cols := listed.value;
          ghost var before := Snapshot();
          var j := 0;
          while j < |cols|
            invariant 0 <= j <= |cols|
            invariant columns == before.columns
            invariant LoadColumns(cols[j..], remote.cardsOf, cards) == LoadColumns(cols, remote.cardsOf, before.cards)
          {
            var col := cols[j];
            assert cols[j..][1..] == cols[j + 1..];
            var got := remote.cardsOf(col.id);
            if got.Err? {
              return Some(got.error);
            }
            var cs := got.value;
            ghost var base := cards;
            var k := 0;
            while k < |cs|
              invariant 0 <= k <= |cs|
              invariant columns == before.columns
              invariant cards == base + Stamped(cs[..k], col.id)
            {
              assert Stamped(cs[..k + 1], col.id) == Stamped(cs[..k], col.id) + [cs[k].(columnID := col.id)];
              cards := cards + [cs[k].(columnID := col.id)];
              k := k + 1;
            }
            assert cs[..k] == cs;
            j := j + 1;
          }
          columns := columns + cols;
        }
        i := i + 1;
      }
      err := None;
    }

    /** Sends the first card of the issue not yet in the column to the
        service and, only if the service accepts, stamps the column's id on
        it. The command sent, if any, is returned beside the error. */
    method MoveIssue(issueURL: string, column: Column, remote: RemoteBoard)
      returns (err: Option<Error>, command: Option<MoveCommand>)
      modifies this
      ensures var o := Moved(old(Snapshot()), issueURL, column, remote);
        Snapshot() == o.board && err == o.err && command == o.command
    {
      var i := 0;
      while i < |cards|
        invariant 0 <= i <= |cards|
        invariant forall k :: 0 <= k < i ==> !Movable(cards[k], issueURL, column.id)
      {
        var card := cards[i];
        if card.contentURL == issueURL && card.columnID != column.id {
          command := Some(MoveCommand(card.id, column.id));
          err := remote.move(card.id, column.id);
          if err.None? {
            cards := cards[i := card.(columnID := column.id)];
          }
          return;
        }
        i := i + 1;
      }
      err, command := Some(IssueNotInProject), None;
    }

    /** Moves the issue's card to the first column with the given name, or
        fails without any change when no column has that name. */
    method MoveIssueToColumn(issueURL: string, columnName: string, remote: RemoteBoard)
      returns (err: Option<Error>, command: Option<MoveCommand>)
      modifies this
      ensures var o := MovedByName(old(Snapshot()), issueURL, columnName, remote);
        Snapshot() == o.board && err == o.err && command == o.command
    {
      var j := 0;
      while j < |columns|
        invariant 0 <= j <= |columns|
        invariant forall k :: 0 <= k < j ==> columns[k].name != columnName
      {
        if columns[j].name == columnName {
          err, command := MoveIssue(issueURL, columns[j], remote);
          return;
        }
        j := j + 1;
      }
      err, command := Some(NoColumnNamed(columnName)), None;
    }

    method MoveToTesting(issueURL: string, cfg: Config, remote: RemoteBoard)
      returns (err: Option<Error>, command: Option<MoveCommand>)
      modifies this
      ensures var o := MovedByName(old(Snapshot()), issueURL, cfg.testingColumn, remote);
        Snapshot() == o.board && err == o.err && command == o.command
    {
      err, command := MoveIssueToColumn(issueURL, cfg.testingColumn, remote);
    }

    method MoveToDeveloping(issueURL: string, cfg: Config, remote: RemoteBoard)
      returns (err: Option<Error>, command: Option<MoveCommand>)
      modifies this
      ensures var o := MovedByName(old(Snapshot()), issueURL, cfg.developingColumn, remote);
        Snapshot() == o.board && err == o.err && command == o.command
    {
      err, command := MoveIssueToColumn(issueURL, cfg.developingColumn, remote);
    }

    /** The column the issue sits in: the first card of the issue whose
        column id is known gives it; cards whose column is unknown are
        skipped. Fails with "not in the project" otherwise. */
    method GetIssueColumn(issueURL: string) returns (r: Result<Column>)
      ensures IssueColumn(Snapshot(), issueURL).None? ==> r == Err(IssueNotInProject)
      ensures IssueColumn(Snapshot(), issueURL).Some? ==> r == Ok(IssueColumn(Snapshot(), issueURL).value)
    {
      var i := 0;
      while i < |cards|
        invariant 0 <= i <= |cards|
        invariant forall k :: 0 <= k < i ==> !Resolves(cards[k], columns, issueURL)
      {
        var card := cards[i];
        if card.contentURL == issueURL {
          var j := 0;
          while j < |columns|
            invariant 0 <= j <= |columns|
            invariant forall k :: 0 <= k < j ==> columns[k].id != card.columnID
          {
            if columns[j].id == card.columnID {
              assert IssueCard(cards, columns, issueURL) == i;
              return Ok(columns[j]);
            }
            j := j + 1;
          }
        }
        i := i + 1;
      }
      r := Err(IssueNotInProject);
    }
  }
}
