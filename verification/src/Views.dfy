/** Typed views over the records: their answers do not depend on how the record map is iterated. */
module Views {
  import opened Common
  import opened Bytes
  import opened Table
  import opened Proto
  import opened DomainStore
  import opened Convergence

  // Field readers

  function Field(r: Entity, name: string): Option<FieldValue>
  {
    if name in r.fields then Some(r.fields[name].0) else None
  }

  function MoneyOrInt(r: Entity, name: string): int
  {
    match Field(r, name)
    case Some(Money(m)) => m
    case Some(Int(i)) => i
    case _ => 0
  }

  function RefField(r: Entity, name: string): Option<EntityId>
  {
    match Field(r, name)
    case Some(Ref(id)) => Some(id)
    case _ => None
  }

  function WalletField(r: Entity, name: string): Option<Wallet>
  {
    match Field(r, name)
    case Some(WalletRef(w)) => Some(w)
    case _ => None
  }

  function TimeField(r: Entity, name: string): Option<nat>
  {
    match Field(r, name)
    case Some(Timestamp(ms)) => Some(ms)
    case _ => None
  }

  /** A text or a tag, and otherwise the empty string. */
  function TextField(r: Entity, name: string): string
  {
    match Field(r, name)
    case Some(Text(s)) => s
    case Some(Tag(s)) => s
    case _ => ""
  }

  // Typed projections of live records

  datatype Stage = Lead | Qualified | Proposal | Won | Lost

  const STAGES: seq<Stage> := [Lead, Qualified, Stage.Proposal, Won, Lost]

  function StageOf(tag: string): Stage
  {
    if tag == "Qualified" then Qualified
    else if tag == "Proposal" then Stage.Proposal
    else if tag == "Won" then Won
    else if tag == "Lost" then Lost
    else Lead
  }

  datatype Status = Todo | Doing | Review | Finished

  function StatusOf(tag: string): Status
  {
    if tag == "Doing" then Doing else if tag == "Review" then Review else if tag == "Done" then Finished else Todo
  }

  datatype DealView = DealView(
    id: EntityId,
    space: GroupId,
    name: string,
    account: Option<EntityId>,
    value: int,
    stage: Stage,
    owner: Option<Wallet>,
    closeDate: Option<nat>,
    linkedThread: Option<EntityId>)

  function DealOf(records: Records, id: EntityId): Option<DealView>
  {
    match Live(records, Key(Deal, id))
    case None => None
    case Some(r) =>
      Some(DealView(id, r.space, TextField(r, "name"), RefField(r, "account"), MoneyOrInt(r, "value"),
                    StageOf(TextField(r, "stage")), WalletField(r, "owner"), TimeField(r, "close_date"),
                    RefField(r, "linked_thread")))
  }

  datatype TaskView = TaskView(
    id: EntityId,
    space: GroupId,
    title: string,
    description: string,
    assignee: Option<Wallet>,
    status: Status,
    due: Option<nat>,
    project: Option<EntityId>,
    board: Option<EntityId>,
    column: Option<EntityId>,
    order: int,
    linkedThread: Option<EntityId>)

  function TaskOf(records: Records, id: EntityId): Option<TaskView>
  {
    match Live(records, Key(Task, id))
    case None => None
    case Some(r) =>
      Some(TaskView(id, r.space, TextField(r, "title"), TextField(r, "description"), WalletField(r, "assignee"),
                    StatusOf(TextField(r, "status")), TimeField(r, "due"), RefField(r, "project"), RefField(r, "board"),
                    RefField(r, "column"), MoneyOrInt(r, "order"), RefField(r, "linked_thread")))
  }

  datatype ColumnView = ColumnView(id: EntityId, name: string, order: int)

  datatype BoardView = BoardView(id: EntityId, space: GroupId, name: string, columns: seq<ColumnView>)

  // What a record shows, read off its fields

  predicate Holds(r: Entity, name: string, v: FieldValue)
  {
    name in r.fields && r.fields[name].0 == v
  }

  /** The field is a text or a tag with these characters. */
  predicate HoldsWord(r: Entity, name: string, s: string)
  {
    Holds(r, name, Text(s)) || Holds(r, name, Tag(s))
  }

  /** Its word, and the empty string when it holds none. */
  ghost predicate ShowsText(r: Entity, name: string, s: string)
  {
    if exists word :: HoldsWord(r, name, word) then HoldsWord(r, name, s) else s == ""
  }

  predicate HoldsNumber(r: Entity, name: string, n: int)
  {
    Holds(r, name, Money(n)) || Holds(r, name, Int(n))
  }

  ghost predicate ShowsNumber(r: Entity, name: string, n: int)
  {
    if exists k :: HoldsNumber(r, name, k) then HoldsNumber(r, name, n) else n == 0
  }

  ghost predicate ShowsRef(r: Entity, name: string, ref: Option<EntityId>)
  {
    forall id :: ref == Some(id) <==> Holds(r, name, Ref(id))
  }

  ghost predicate ShowsWallet(r: Entity, name: string, wallet: Option<Wallet>)
  {
    forall w :: wallet == Some(w) <==> Holds(r, name, WalletRef(w))
  }

  ghost predicate ShowsTime(r: Entity, name: string, time: Option<nat>)
  {
    forall ms: nat :: time == Some(ms) <==> Holds(r, name, Timestamp(ms))
  }

  /** `DealStage::as_str`: the tag a writer gives a stage. */
  function StageTag(stage: Stage): string
  {
    match stage
    case Lead => "Lead"
    case Qualified => "Qualified"
    case Proposal => "Proposal"
    case Won => "Won"
    case Lost => "Lost"
  }

  /** The stage whose tag the field holds, and Lead when it holds no stage's tag. */
  ghost predicate ShowsStage(r: Entity, name: string, stage: Stage)
  {
    if exists x :: HoldsWord(r, name, StageTag(x)) then HoldsWord(r, name, StageTag(stage)) else stage == Lead
  }

  /** `TaskStatus::as_str`. */
  function StatusTag(status: Status): string
  {
    match status
    case Todo => "Todo"
    case Doing => "Doing"
    case Review => "Review"
    case Finished => "Done"
  }

  ghost predicate ShowsStatus(r: Entity, name: string, status: Status)
  {
    if exists x :: HoldsWord(r, name, StatusTag(x)) then HoldsWord(r, name, StatusTag(status)) else status == Todo
  }

  /** A stage's tag reads back as the stage, and anything else as Lead. */
  lemma StageRoundTrip(stage: Stage, tag: string)
    ensures StageOf(StageTag(stage)) == stage
    ensures (forall x :: StageTag(x) != tag) ==> StageOf(tag) == Lead
  {
    assert StageTag(Qualified) == "Qualified" && StageTag(Stage.Proposal) == "Proposal";
    assert StageTag(Won) == "Won" && StageTag(Lost) == "Lost";
    assert "Lead"[0] != "Qualified"[0] && "Lead"[1] != "Lost"[1] && "Lead"[0] != "Proposal"[0] && "Lead"[0] != "Won"[0];
    assert "Proposal"[0] != "Qualified"[0] && "Won"[0] != "Qualified"[0] && "Lost"[0] != "Qualified"[0];
    assert "Won"[0] != "Proposal"[0] && "Lost"[0] != "Proposal"[0] && "Lost"[0] != "Won"[0];
  }

  /** A status' tag reads back as the status, and anything else as Todo. */
  lemma StatusRoundTrip(status: Status, tag: string)
    ensures StatusOf(StatusTag(status)) == status
    ensures (forall x :: StatusTag(x) != tag) ==> StatusOf(tag) == Todo
  {
    assert StatusTag(Doing) == "Doing" && StatusTag(Review) == "Review" && StatusTag(Finished) == "Done";
    assert "Todo"[0] != "Doing"[0] && "Todo"[0] != "Review"[0] && "Todo"[0] != "Done"[0];
    assert "Review"[0] != "Doing"[0] && "Done"[2] != "Doing"[2] && "Done"[0] != "Review"[0];
  }

  lemma TextShown(r: Entity, name: string)
    ensures forall s :: ShowsText(r, name, s) <==> s == TextField(r, name)
  {
    if name in r.fields && (r.fields[name].0.Text? || r.fields[name].0.Tag?) {
      assert HoldsWord(r, name, TextField(r, name));
    }
  }

  lemma NumberShown(r: Entity, name: string)
    ensures forall n :: ShowsNumber(r, name, n) <==> n == MoneyOrInt(r, name)
  {
    if name in r.fields && (r.fields[name].0.Money? || r.fields[name].0.Int?) {
      assert HoldsNumber(r, name, MoneyOrInt(r, name));
    }
  }

  lemma RefShown(r: Entity, name: string, ref: Option<EntityId>)
    ensures ShowsRef(r, name, ref) <==> ref == RefField(r, name)
  {
    var read := RefField(r, name);
    assert forall id :: read == Some(id) <==> Holds(r, name, Ref(id));
    if ShowsRef(r, name, ref) {
      if read.Some? { assert Holds(r, name, Ref(read.value)); }
      if ref.Some? { assert Holds(r, name, Ref(ref.value)); }
    }
  }

  lemma WalletShown(r: Entity, name: string, wallet: Option<Wallet>)
    ensures ShowsWallet(r, name, wallet) <==> wallet == WalletField(r, name)
  {
    var read := WalletField(r, name);
    assert forall w :: read == Some(w) <==> Holds(r, name, WalletRef(w));
    if ShowsWallet(r, name, wallet) {
      if read.Some? { assert Holds(r, name, WalletRef(read.value)); }
      if wallet.Some? { assert Holds(r, name, WalletRef(wallet.value)); }
    }
  }

  lemma TimeShown(r: Entity, name: string, time: Option<nat>)
    ensures ShowsTime(r, name, time) <==> time == TimeField(r, name)
  {
    var read := TimeField(r, name);
    assert forall ms: nat :: read == Some(ms) <==> Holds(r, name, Timestamp(ms));
    if ShowsTime(r, name, time) {
      if read.Some? { assert Holds(r, name, Timestamp(read.value)); }
      if time.Some? { assert Holds(r, name, Timestamp(time.value)); }
    }
  }

  lemma WordHeld(r: Entity, name: string)
    ensures TextField(r, name) != "" ==> HoldsWord(r, name, TextField(r, name))
  {
  }

  lemma StageShown(r: Entity, name: string, stage: Stage)
    ensures ShowsStage(r, name, stage) <==> stage == StageOf(TextField(r, name))
  {
    hide StageOf, StageTag;
    var word := TextField(r, name);
    StageRoundTrip(stage, word);
    WordHeld(r, name);
    if x :| HoldsWord(r, name, StageTag(x)) {
      StageRoundTrip(x, word);
      assert word == StageTag(x);
    } else if exists w :: HoldsWord(r, name, w) {
      var w :| HoldsWord(r, name, w);
      assert w == word;
    } else {
      forall x ensures StageTag(x) != "" { StageTagged(x); }
    }
  }

  lemma StageTagged(stage: Stage)
    ensures StageTag(stage) != ""
  {
  }

  lemma StatusShown(r: Entity, name: string, status: Status)
    ensures ShowsStatus(r, name, status) <==> status == StatusOf(TextField(r, name))
  {
    hide StatusOf, StatusTag;
    var word := TextField(r, name);
    StatusRoundTrip(status, word);
    WordHeld(r, name);
    if x :| HoldsWord(r, name, StatusTag(x)) {
      StatusRoundTrip(x, word);
      assert word == StatusTag(x);
    } else if exists w :: HoldsWord(r, name, w) {
      var w :| HoldsWord(r, name, w);
      assert w == word;
    } else {
      forall x ensures StatusTag(x) != "" { StatusTagged(x); }
    }
  }

  lemma StatusTagged(status: Status)
    ensures StatusTag(status) != ""
  {
  }

  predicate Alive(records: Records, k: Key)
  {
    k in records && records[k].deleted == None
  }

  /** `d` shows the live deal of its id, column by column. */
  ghost predicate DealRow(records: Records, d: DealView)
  {
    var k := Key(Deal, d.id);
    && Alive(records, k)
    && var r := records[k];
    && d.space == r.space
    && ShowsText(r, "name", d.name) && ShowsRef(r, "account", d.account) && ShowsNumber(r, "value", d.value)
    && ShowsStage(r, "stage", d.stage) && ShowsWallet(r, "owner", d.owner)
    && ShowsTime(r, "close_date", d.closeDate) && ShowsRef(r, "linked_thread", d.linkedThread)
  }

  lemma DealShown(records: Records, d: DealView)
    ensures DealRow(records, d) <==> DealOf(records, d.id) == Some(d)
  {
    hide ShowsText, ShowsNumber, ShowsRef, ShowsWallet, ShowsTime, ShowsStage, StageOf;
    hide TextField, MoneyOrInt, RefField, WalletField, TimeField;
    if Key(Deal, d.id) in records {
      var r := records[Key(Deal, d.id)];
      TextShown(r, "name");
      RefShown(r, "account", d.account);
      NumberShown(r, "value");
      StageShown(r, "stage", d.stage);
      WalletShown(r, "owner", d.owner);
      TimeShown(r, "close_date", d.closeDate);
      RefShown(r, "linked_thread", d.linkedThread);
    }
  }

  /** `t` shows the live task of its id, column by column. */
  ghost predicate TaskRow(records: Records, t: TaskView)
  {
    var k := Key(Task, t.id);
    && Alive(records, k)
    && var r := records[k];
    && t.space == r.space
    && ShowsText(r, "title", t.title) && ShowsText(r, "description", t.description)
    && ShowsWallet(r, "assignee", t.assignee) && ShowsStatus(r, "status", t.status) && ShowsTime(r, "due", t.due)
    && ShowsRef(r, "project", t.project) && ShowsRef(r, "board", t.board) && ShowsRef(r, "column", t.column)
    && ShowsNumber(r, "order", t.order) && ShowsRef(r, "linked_thread", t.linkedThread)
  }

  lemma TaskShown(records: Records, t: TaskView)
    ensures TaskRow(records, t) <==> TaskOf(records, t.id) == Some(t)
  {
    hide ShowsText, ShowsNumber, ShowsRef, ShowsWallet, ShowsTime, ShowsStatus, StatusOf;
    hide TextField, MoneyOrInt, RefField, WalletField, TimeField;
    if Key(Task, t.id) in records {
      var r := records[Key(Task, t.id)];
      TextShown(r, "title");
      TextShown(r, "description");
      WalletShown(r, "assignee", t.assignee);
      StatusShown(r, "status", t.status);
      TimeShown(r, "due", t.due);
      RefShown(r, "project", t.project);
      RefShown(r, "board", t.board);
      RefShown(r, "column", t.column);
      NumberShown(r, "order");
      RefShown(r, "linked_thread", t.linkedThread);
    }
  }

  /** `col` shows the live column of its id, which is on the board. */
  ghost predicate ColumnRow(records: Records, board: EntityId, col: ColumnView)
  {
    var k := Key(BoardColumn, col.id);
    && Alive(records, k)
    && Holds(records[k], "board", Ref(board))
    && ShowsText(records[k], "name", col.name) && ShowsNumber(records[k], "order", col.order)
  }

  // Listing by id

  predicate ByteOrder(ids: seq<EntityId>)
  {
    forall i, j :: 0 <= i < j < |ids| ==> Less(ids[i].bytes, ids[j].bytes)
  }

  /** The live entities of a kind in a space. */
  function LiveIds(records: Records, kind: EntityType, space: GroupId): set<EntityId>
  {
    set k | k in records && k.kind == kind && records[k].space == space && records[k].deleted.None? :: k.id
  }

  /** `ids_in`: the live ids in ascending byte order, each once. */
  method IdsIn(records: Records, kind: EntityType, space: GroupId) returns (ids: seq<EntityId>)
    ensures ByteOrder(ids)
    ensures forall i, j :: 0 <= i < j < |ids| ==> Less(ids[i].bytes, ids[j].bytes)
    ensures forall id :: id in ids <==> id in LiveIds(records, kind, space)
    ensures forall id :: id in ids <==> Alive(records, Key(kind, id)) && records[Key(kind, id)].space == space
  {
    var found: set<EntityId> := {};
    var rest := records.Keys;
    while rest != {}
      invariant rest <= records.Keys
      invariant forall id :: id in found <==>
                  && Key(kind, id) in records && Key(kind, id) !in rest
                  && records[Key(kind, id)].space == space && records[Key(kind, id)].deleted.None?
      decreases |rest|
    {
      var k :| k in rest;
      if k.kind == kind && records[k].space == space && records[k].deleted.None? {
        found := found + {k.id};
      }
      rest := rest - {k};
    }
    assert found == LiveIds(records, kind, space);
    ids := SortedIds(found);
  }

  function Index(ids: set<EntityId>): map<Blob, ()>
  {
    map id | id in ids :: id.bytes := ()
  }

  method SortedIds(ids: set<EntityId>) returns (sorted: seq<EntityId>)
    ensures forall i, j :: 0 <= i < j < |sorted| ==> Less(sorted[i].bytes, sorted[j].bytes)
    ensures forall id :: id in sorted <==> id in ids
  {
    hide Scan, Less, Index, Lists;
    var rows := ScanTable(Index(ids));
    ScanLists(Index(ids));
    RowsAreIds(ids, rows);
    sorted := [];
    for i := 0 to |rows|
      invariant |sorted| == i
      invariant forall k :: 0 <= k < i ==> sorted[k].bytes == rows[k].0 && sorted[k] in ids
    {
      sorted := sorted + [EntityId(rows[i].0)];
    }
    forall id | id in ids ensures id in sorted {
      var i := RowOf(ids, rows, id);
      assert sorted[i] == id;
    }
  }

  lemma RowsAreIds(ids: set<EntityId>, rows: seq<(Blob, ())>)
    requires Lists(rows, Index(ids))
    ensures forall i :: 0 <= i < |rows| ==> |rows[i].0| == 16 && EntityId(rows[i].0) in ids
  {
    forall i | 0 <= i < |rows| ensures |rows[i].0| == 16 && EntityId(rows[i].0) in ids {
      assert rows[i].0 in Index(ids);
      var id :| id in ids && id.bytes == rows[i].0;
      assert id == EntityId(rows[i].0);
    }
  }

  lemma RowOf(ids: set<EntityId>, rows: seq<(Blob, ())>, id: EntityId) returns (i: nat)
    requires Lists(rows, Index(ids)) && id in ids
    ensures i < |rows| && rows[i].0 == id.bytes
  {
    assert id.bytes in Index(ids);
    i :| 0 <= i < |rows| && rows[i].0 == id.bytes;
  }

  // Listing by position

  datatype Card = Card(order: int, id: EntityId)

  /** The order of tasks in a column and of columns on a board: by `order`, then by id. */
  predicate Ahead(a: Card, b: Card)
  {
    a.order < b.order || (a.order == b.order && Less(a.id.bytes, b.id.bytes))
  }

  predicate Ranked(cards: seq<Card>)
  {
    forall i, j :: 0 <= i < j < |cards| ==> Ahead(cards[i], cards[j])
  }

  predicate OnColumn(records: Records, k: Key, board: EntityId, column: EntityId)
  {
    && k in records && k.kind == Task && records[k].deleted.None?
    && RefField(records[k], "board") == Some(board) && RefField(records[k], "column") == Some(column)
  }

  predicate OnBoard(records: Records, k: Key, board: EntityId)
  {
    && k in records && k.kind == BoardColumn && records[k].deleted.None?
    && RefField(records[k], "board") == Some(board)
  }

  function CardOf(records: Records, k: Key): Card
    requires k in records
  {
    Card(MoneyOrInt(records[k], "order"), k.id)
  }

  lemma AheadTotal(a: Card, b: Card)
    ensures a == b || Ahead(a, b) || Ahead(b, a)
    ensures !(Ahead(a, b) && Ahead(b, a)) && !Ahead(a, a)
  {
    LessTotal(a.id.bytes, b.id.bytes);
    LessIrreflexive(a.id.bytes);
    if Less(a.id.bytes, b.id.bytes) && Less(b.id.bytes, a.id.bytes) {
      LessTransitive(a.id.bytes, b.id.bytes, a.id.bytes);
    }
  }

  lemma AheadTransitive(a: Card, b: Card, c: Card)
    requires Ahead(a, b) && Ahead(b, c)
    ensures Ahead(a, c)
  {
    if a.order == b.order == c.order { LessTransitive(a.id.bytes, b.id.bytes, c.id.bytes); }
  }

  /** Insert into a ranked list at the place of its rank. */
  function Placed(cards: seq<Card>, card: Card): (out: seq<Card>)
    ensures multiset(out) == multiset(cards) + multiset{card}
  {
    if cards == [] || Ahead(cards[|cards| - 1], card) then cards + [card]
    else
      assert cards == cards[..|cards| - 1] + [cards[|cards| - 1]];
      Placed(cards[..|cards| - 1], card) + [cards[|cards| - 1]]
  }

  lemma {:induction false} PlacedMembers(cards: seq<Card>, card: Card)
    ensures forall x :: x in Placed(cards, card) <==> x in cards || x == card
  {
    forall x ensures x in Placed(cards, card) <==> x in cards || x == card {
      assert x in Placed(cards, card) <==> x in multiset(Placed(cards, card));
      assert x in cards <==> x in multiset(cards);
    }
  }

  lemma {:induction false} PlacedRanked(cards: seq<Card>, card: Card)
    requires Ranked(cards) && card !in cards
    ensures Ranked(Placed(cards, card))
  {
    hide Ahead;
    if cards != [] {
      var rest, last := cards[..|cards| - 1], cards[|cards| - 1];
      AheadTotal(last, card);
      if Ahead(last, card) {
        forall i | 0 <= i < |rest| ensures Ahead(cards[i], card) { AheadTransitive(cards[i], last, card); }
      } else {
        PlacedRanked(rest, card);
        PlacedMembers(rest, card);
        var placed := Placed(rest, card);
        forall i | 0 <= i < |placed| ensures Ahead(placed[i], last) {
          assert placed[i] in placed;
          if placed[i] != card {
            var j :| 0 <= j < |rest| && rest[j] == placed[i];
            assert Ahead(cards[j], cards[|cards| - 1]);
          }
        }
      }
    }
  }

  /** A ranked list is determined by its members, so the hash order of the records cannot show. */
  lemma {:induction false} RankedIsUnique(a: seq<Card>, b: seq<Card>)
    requires Ranked(a) && Ranked(b) && (forall x :: x in a <==> x in b)
    ensures a == b
    decreases |a|
  {
    hide Ahead;
    assert a != [] ==> a[0] in b;
    assert b != [] ==> b[0] in a;
    if a != [] && b != [] {
      var m, n := |a| - 1, |b| - 1;
      LastsAgree(a, b);
      LastOnlyOnce(a);
      LastOnlyOnce(b);
      forall x ensures x in a[..m] <==> x in b[..n] {
        assert a == a[..m] + [a[m]] && b == b[..n] + [b[n]];
        assert x in a <==> x in b;
      }
      RankedIsUnique(a[..m], b[..n]);
      assert a == a[..m] + [a[m]] && b == b[..n] + [b[n]];
    }
  }

  lemma LastOnlyOnce(a: seq<Card>)
    requires a != [] && Ranked(a)
    ensures a[|a| - 1] !in a[..|a| - 1]
  {
    hide Ahead;
    var last := a[|a| - 1];
    AheadTotal(last, last);
    forall i | 0 <= i < |a| - 1 ensures a[i] != last { assert Ahead(a[i], last); }
  }

  lemma LastsAgree(a: seq<Card>, b: seq<Card>)
    requires a != [] && b != [] && Ranked(a) && Ranked(b) && (forall x :: x in a <==> x in b)
    ensures a[|a| - 1] == b[|b| - 1]
  {
    hide Ahead;
    var x, y := a[|a| - 1], b[|b| - 1];
    assert x in b && y in a;
    var i :| 0 <= i < |b| && b[i] == x;
    var j :| 0 <= j < |a| && a[j] == y;
    AheadTotal(x, y);
    assert i < |b| - 1 ==> Ahead(x, y);
    assert j < |a| - 1 ==> Ahead(y, x);
  }

  /** The cards are exactly those of the entities, by rank. */
  ghost predicate IsRanking(records: Records, kind: EntityType, ids: set<EntityId>, cards: seq<Card>)
  {
    && Ranked(cards)
    && (forall id :: id in ids ==> Key(kind, id) in records && CardOf(records, Key(kind, id)) in cards)
    && (forall x :: x in cards ==>
          x.id in ids && Key(kind, x.id) in records && x == CardOf(records, Key(kind, x.id)))
  }

  /** Rank entities of one kind, whatever order they come in. */
  method Rank(records: Records, kind: EntityType, ids: set<EntityId>) returns (cards: seq<Card>)
    requires forall id :: id in ids ==> Key(kind, id) in records
    ensures IsRanking(records, kind, ids, cards)
  {
    hide Ahead;
    cards := [];
    var rest := ids;
    while rest != {}
      invariant rest <= ids && Ranked(cards)
      invariant forall id :: id in ids && id !in rest ==> CardOf(records, Key(kind, id)) in cards
      invariant forall x :: x in cards ==> x.id in ids && x.id !in rest && x == CardOf(records, Key(kind, x.id))
      decreases |rest|
    {
      var id :| id in rest;
      var card := CardOf(records, Key(kind, id));
      assert card.id == id;
      PlacedMembers(cards, card);
      PlacedRanked(cards, card);
      cards := Placed(cards, card);
      rest := rest - {id};
    }
  }

  function Cards<V>(views: seq<V>, card: V -> Card): (cards: seq<Card>)
    ensures |cards| == |views| && forall i :: 0 <= i < |views| ==> cards[i] == card(views[i])
  {
    seq(|views|, i requires 0 <= i < |views| => card(views[i]))
  }

  // Tasks in a column

  function TaskCard(task: TaskView): Card
  {
    Card(task.order, task.id)
  }

  function ColumnTasks(records: Records, board: EntityId, column: EntityId): set<EntityId>
  {
    set k | k in records && OnColumn(records, k, board, column) :: k.id
  }

  /** The tasks are exactly the live tasks of the column, with all their fields, by order and then id. */
  ghost predicate IsColumnView(records: Records, board: EntityId, column: EntityId, tasks: seq<TaskView>)
  {
    && IsRanking(records, Task, ColumnTasks(records, board, column), Cards(tasks, TaskCard))
    && forall i :: 0 <= i < |tasks| ==> TaskOf(records, tasks[i].id) == Some(tasks[i])
  }

  /** Equal records show equal columns: a column has one view. */
  lemma ColumnViewIsUnique(records: Records, board: EntityId, column: EntityId, a: seq<TaskView>, b: seq<TaskView>)
    requires IsColumnView(records, board, column, a) && IsColumnView(records, board, column, b)
    ensures a == b
  {
    RankedIsUnique(Cards(a, TaskCard), Cards(b, TaskCard));
    forall i | 0 <= i < |a| ensures a[i] == b[i] {
      assert Cards(a, TaskCard)[i] == Cards(b, TaskCard)[i];
      assert TaskOf(records, a[i].id) == Some(a[i]) && TaskOf(records, b[i].id) == Some(b[i]);
    }
  }

  /** `tasks_in_column`: exactly the live tasks of the column, ranked, whatever order the map yields. */
  method TasksInColumn(records: Records, board: EntityId, column: EntityId) returns (tasks: seq<TaskView>)
    ensures IsColumnView(records, board, column, tasks)
    ensures forall t :: t in tasks <==> TaskRow(records, t) && t.board == Some(board) && t.column == Some(column)
    ensures forall i, j :: 0 <= i < j < |tasks| ==>
              tasks[i].order < tasks[j].order
              || (tasks[i].order == tasks[j].order && Less(tasks[i].id.bytes, tasks[j].id.bytes))
  {
    var cards := Rank(records, Task, ColumnTasks(records, board, column));
    tasks := [];
    for i := 0 to |cards|
      invariant |tasks| == i
      invariant forall k :: 0 <= k < i ==> TaskOf(records, cards[k].id) == Some(tasks[k])
    {
      assert cards[i].id in ColumnTasks(records, board, column);
      tasks := tasks + [TaskOf(records, cards[i].id).value];
    }
    forall k | 0 <= k < |cards| ensures TaskCard(tasks[k]) == cards[k] {
      assert cards[k] == CardOf(records, Key(Task, cards[k].id));
    }
    assert Cards(tasks, TaskCard) == cards;
    ColumnSpelledOut(records, board, column, tasks);
  }

  lemma ColumnSpelledOut(records: Records, board: EntityId, column: EntityId, tasks: seq<TaskView>)
    requires IsColumnView(records, board, column, tasks)
    ensures forall t :: t in tasks <==> TaskRow(records, t) && t.board == Some(board) && t.column == Some(column)
    ensures forall i, j :: 0 <= i < j < |tasks| ==>
              tasks[i].order < tasks[j].order
              || (tasks[i].order == tasks[j].order && Less(tasks[i].id.bytes, tasks[j].id.bytes))
  {
    hide TaskRow, Less;
    var cards := Cards(tasks, TaskCard);
    forall t ensures t in tasks <==> TaskRow(records, t) && t.board == Some(board) && t.column == Some(column) {
      TaskShown(records, t);
      if t in tasks {
        var i :| 0 <= i < |tasks| && tasks[i] == t;
        assert cards[i] in cards && cards[i].id in ColumnTasks(records, board, column);
      }
      if TaskRow(records, t) && t.board == Some(board) && t.column == Some(column) {
        assert OnColumn(records, Key(Task, t.id), board, column);
        assert t.id in ColumnTasks(records, board, column);
        assert CardOf(records, Key(Task, t.id)) in cards;
        var i :| 0 <= i < |cards| && cards[i] == CardOf(records, Key(Task, t.id));
        assert tasks[i].id == t.id;
      }
    }
    forall i, j | 0 <= i < j < |tasks|
      ensures tasks[i].order < tasks[j].order
              || (tasks[i].order == tasks[j].order && Less(tasks[i].id.bytes, tasks[j].id.bytes))
    {
      assert Ahead(cards[i], cards[j]);
    }
  }

  // Columns of a board

  function ColumnCard(column: ColumnView): Card
  {
    Card(column.order, column.id)
  }

  function BoardColumns(records: Records, board: EntityId): set<EntityId>
  {
    set k | k in records && OnBoard(records, k, board) :: k.id
  }

  /** The live board with its space, its name, and exactly its live columns, named, by order and then id. */
  ghost predicate IsBoardView(records: Records, board: EntityId, view: BoardView)
  {
    && Live(records, Key(Board, board)).Some?
    && var r := records[Key(Board, board)];
    && view.id == board && view.space == r.space && view.name == TextField(r, "name")
    && IsRanking(records, BoardColumn, BoardColumns(records, board), Cards(view.columns, ColumnCard))
    && forall i :: 0 <= i < |view.columns| ==>
         var k := Key(BoardColumn, view.columns[i].id);
         k in records && view.columns[i].name == TextField(records[k], "name")
  }

  /** A board has one view. */
  lemma BoardViewIsUnique(records: Records, board: EntityId, a: BoardView, b: BoardView)
    requires IsBoardView(records, board, a) && IsBoardView(records, board, b)
    ensures a == b
  {
    RankedIsUnique(Cards(a.columns, ColumnCard), Cards(b.columns, ColumnCard));
    forall i | 0 <= i < |a.columns| ensures a.columns[i] == b.columns[i] {
      assert Cards(a.columns, ColumnCard)[i] == Cards(b.columns, ColumnCard)[i];
    }
  }

  /** `board`: a live board and its columns, ranked; a board that is not live has no view. */
  method BoardOf(records: Records, board: EntityId) returns (view: Option<BoardView>)
    ensures view.None? <==> Live(records, Key(Board, board)).None?
    ensures view.None? <==> !Alive(records, Key(Board, board))
    ensures view.Some? ==> IsBoardView(records, board, view.value)
    ensures view.Some? ==>
              var r, columns := records[Key(Board, board)], view.value.columns;
              && view.value.id == board && view.value.space == r.space && ShowsText(r, "name", view.value.name)
              && (forall col :: col in columns <==> ColumnRow(records, board, col))
              && (forall i, j :: 0 <= i < j < |columns| ==>
                    columns[i].order < columns[j].order
                    || (columns[i].order == columns[j].order && Less(columns[i].id.bytes, columns[j].id.bytes)))
  {
    if Live(records, Key(Board, board)).None? {
      return None;
    }
    var cards := Rank(records, BoardColumn, BoardColumns(records, board));
    var columns: seq<ColumnView> := [];
    for i := 0 to |cards|
      invariant |columns| == i
      invariant forall k :: 0 <= k < i ==>
                  && Key(BoardColumn, cards[k].id) in records
                  && var name := TextField(records[Key(BoardColumn, cards[k].id)], "name");
                     columns[k] == ColumnView(cards[k].id, name, cards[k].order)
    {
      var name := TextField(records[Key(BoardColumn, cards[i].id)], "name");
      columns := columns + [ColumnView(cards[i].id, name, cards[i].order)];
    }
    assert Cards(columns, ColumnCard) == cards;
    var r := records[Key(Board, board)];
    view := Some(BoardView(board, r.space, TextField(r, "name"), columns));
    BoardSpelledOut(records, board, view.value);
  }

  lemma BoardSpelledOut(records: Records, board: EntityId, view: BoardView)
    requires IsBoardView(records, board, view)
    ensures ShowsText(records[Key(Board, board)], "name", view.name)
    ensures forall col :: col in view.columns <==> ColumnRow(records, board, col)
    ensures forall i, j :: 0 <= i < j < |view.columns| ==>
              view.columns[i].order < view.columns[j].order
              || (view.columns[i].order == view.columns[j].order
                  && Less(view.columns[i].id.bytes, view.columns[j].id.bytes))
  {
    hide ShowsText, ShowsNumber, TextField, MoneyOrInt, Less;
    var cards, columns := Cards(view.columns, ColumnCard), view.columns;
    TextShown(records[Key(Board, board)], "name");
    forall col ensures col in columns <==> ColumnRow(records, board, col) {
      var k := Key(BoardColumn, col.id);
      if k in records {
        TextShown(records[k], "name");
        NumberShown(records[k], "order");
        RefHeld(records[k], "board", board);
      }
      if col in columns {
        var i :| 0 <= i < |columns| && columns[i] == col;
        assert cards[i] in cards && cards[i].id in BoardColumns(records, board);
      }
      if ColumnRow(records, board, col) {
        assert col.id in BoardColumns(records, board);
        assert CardOf(records, k) in cards;
        var i :| 0 <= i < |cards| && cards[i] == CardOf(records, k);
        assert columns[i] == col;
      }
    }
    forall i, j | 0 <= i < j < |columns|
      ensures columns[i].order < columns[j].order
              || (columns[i].order == columns[j].order && Less(columns[i].id.bytes, columns[j].id.bytes))
    {
      assert Ahead(cards[i], cards[j]);
    }
  }

  lemma RefHeld(r: Entity, name: string, id: EntityId)
    ensures RefField(r, name) == Some(id) <==> Holds(r, name, Ref(id))
  {
  }

  // The deal pipeline

  predicate DealOrder(deals: seq<DealView>)
  {
    forall i, j :: 0 <= i < j < |deals| ==> Less(deals[i].id.bytes, deals[j].id.bytes)
  }

  /** `d` is the projection of a live deal of the space. */
  predicate DealIn(records: Records, space: GroupId, d: DealView)
  {
    d.id in LiveIds(records, Deal, space) && DealOf(records, d.id) == Some(d)
  }

  /** `deals_in`: the live deals of a space in id order. */
  method DealsIn(records: Records, space: GroupId) returns (deals: seq<DealView>)
    ensures DealOrder(deals)
    ensures forall d :: d in deals <==> DealIn(records, space, d)
    ensures forall d :: d in deals <==> DealRow(records, d) && d.space == space
    ensures forall i, j :: 0 <= i < j < |deals| ==> Less(deals[i].id.bytes, deals[j].id.bytes)
  {
    hide Less, DealRow;
    var ids := IdsIn(records, Deal, space);
    deals := [];
    for i := 0 to |ids|
      invariant |deals| == i
      invariant forall k :: 0 <= k < i ==> DealOf(records, ids[k]) == Some(deals[k])
    {
      assert ids[i] in LiveIds(records, Deal, space);
      deals := deals + [DealOf(records, ids[i]).value];
    }
    forall d ensures d in deals <==> DealIn(records, space, d) {
      if d in deals {
        var i :| 0 <= i < |deals| && deals[i] == d;
        assert ids[i] in ids;
      }
      if DealIn(records, space, d) {
        assert d.id in ids;
        var i :| 0 <= i < |ids| && ids[i] == d.id;
        assert deals[i] == d;
      }
    }
    forall d ensures DealIn(records, space, d) <==> DealRow(records, d) && d.space == space {
      DealInExactly(records, space, d);
    }
  }

  lemma DealInExactly(records: Records, space: GroupId, d: DealView)
    ensures DealIn(records, space, d) <==> DealRow(records, d) && d.space == space
  {
    hide DealRow;
    DealShown(records, d);
    if Key(Deal, d.id) in records && records[Key(Deal, d.id)].deleted.None? && records[Key(Deal, d.id)].space == space {
      assert d.id in LiveIds(records, Deal, space);
    }
  }

  /** The deals of one stage, in their order. */
  method Lane(deals: seq<DealView>, stage: Stage) returns (lane: seq<DealView>)
    requires DealOrder(deals)
    ensures DealOrder(lane)
    ensures forall d :: d in lane <==> d in deals && d.stage == stage
  {
    lane := [];
    for i := 0 to |deals|
      invariant DealOrder(lane)
      invariant forall d :: d in lane <==> d in deals[..i] && d.stage == stage
      invariant forall d, k :: d in lane && i <= k < |deals| ==> Less(d.id.bytes, deals[k].id.bytes)
    {
      assert deals[..i + 1] == deals[..i] + [deals[i]];
      if deals[i].stage == stage {
        var longer := lane + [deals[i]];
        forall a, b | 0 <= a < b < |longer| ensures Less(longer[a].id.bytes, longer[b].id.bytes) {
          if b == |lane| { assert lane[a] in lane; }
        }
        lane := longer;
      }
    }
    assert deals[..|deals|] == deals;
  }

  /** The deal stands in lane `s` and in no other. */
  predicate OnlyIn(lanes: seq<(Stage, seq<DealView>)>, d: DealView, s: nat)
    requires s < |lanes|
  {
    forall t :: 0 <= t < |lanes| ==> (d in lanes[t].1 <==> t == s)
  }

  /**
   * `pipeline`: one lane per stage in canonical order, each in id order; the lanes hold exactly the
   * live deals of the space, each in exactly one of them.
   */
  method Pipeline(records: Records, space: GroupId) returns (lanes: seq<(Stage, seq<DealView>)>)
    ensures |lanes| == |STAGES|
    ensures forall s :: 0 <= s < |STAGES| ==> lanes[s].0 == STAGES[s] && DealOrder(lanes[s].1)
    ensures forall s, d :: 0 <= s < |STAGES| ==>
              (d in lanes[s].1 <==> DealIn(records, space, d) && d.stage == STAGES[s])
    ensures forall d :: DealIn(records, space, d) ==>
              exists s :: 0 <= s < |lanes| && OnlyIn(lanes, d, s)
    ensures |lanes| == 5 && lanes[0].0 == Lead && lanes[1].0 == Qualified && lanes[2].0 == Stage.Proposal
            && lanes[3].0 == Won && lanes[4].0 == Lost
    ensures forall s, d :: 0 <= s < |lanes| ==>
              (d in lanes[s].1 <==> DealRow(records, d) && d.space == space && d.stage == lanes[s].0)
    ensures forall s, id :: 0 <= s < |lanes| && TaggedDeal(records, space, id, lanes[s].0) ==>
              StandsOnlyIn(lanes, id, s)
  {
    hide DealRow, TaggedDeal, StandsOnlyIn, DealIn;
    var deals := DealsIn(records, space);
    lanes := [];
    for s := 0 to |STAGES|
      invariant |lanes| == s
      invariant forall t :: 0 <= t < s ==> lanes[t].0 == STAGES[t] && DealOrder(lanes[t].1)
      invariant forall t, d :: 0 <= t < s ==> (d in lanes[t].1 <==> DealIn(records, space, d) && d.stage == STAGES[t])
    {
      var lane := Lane(deals, STAGES[s]);
      lanes := lanes + [(STAGES[s], lane)];
    }
    forall d | DealIn(records, space, d)
      ensures exists s :: 0 <= s < |lanes| && OnlyIn(lanes, d, s)
    {
      var s := StageIndex(d.stage);
      assert OnlyIn(lanes, d, s);
    }
    forall d ensures DealIn(records, space, d) <==> DealRow(records, d) && d.space == space {
      DealInExactly(records, space, d);
    }
    forall s, id | 0 <= s < |lanes| && TaggedDeal(records, space, id, lanes[s].0) ensures StandsOnlyIn(lanes, id, s) {
      TaggedStands(records, space, lanes, id, s);
    }
  }

  /** A live deal of the space whose stage field holds the stage's tag. */
  predicate TaggedDeal(records: Records, space: GroupId, id: EntityId, stage: Stage)
  {
    && Alive(records, Key(Deal, id)) && records[Key(Deal, id)].space == space
    && HoldsWord(records[Key(Deal, id)], "stage", StageTag(stage))
  }

  /** The deal of this id stands in lane `s` and in no other. */
  predicate StandsOnlyIn(lanes: seq<(Stage, seq<DealView>)>, id: EntityId, s: nat)
    requires s < |lanes|
  {
    && (exists d :: d in lanes[s].1 && d.id == id)
    && forall t, d :: 0 <= t < |lanes| && t != s && d in lanes[t].1 ==> d.id != id
  }

  lemma TaggedStands(records: Records, space: GroupId, lanes: seq<(Stage, seq<DealView>)>, id: EntityId, s: nat)
    requires s < |lanes| == |STAGES| && forall t :: 0 <= t < |lanes| ==> lanes[t].0 == STAGES[t]
    requires forall t, d :: 0 <= t < |lanes| ==>
               (d in lanes[t].1 <==> DealRow(records, d) && d.space == space && d.stage == lanes[t].0)
    requires TaggedDeal(records, space, id, lanes[s].0)
    ensures StandsOnlyIn(lanes, id, s)
  {
    hide DealRow, StageTag, StageOf, ShowsStage;
    var r := records[Key(Deal, id)];
    var d := DealOf(records, id).value;
    DealShown(records, d);
    StageShown(r, "stage", lanes[s].0);
    assert ShowsStage(r, "stage", lanes[s].0) by { StageHeld(r, "stage", lanes[s].0); }
    assert d.stage == lanes[s].0 && d in lanes[s].1;
    forall t, e | 0 <= t < |lanes| && t != s && e in lanes[t].1 ensures e.id != id {
      DealShown(records, e);
      var s' := StageIndex(lanes[t].0);
    }
  }

  lemma StageHeld(r: Entity, name: string, stage: Stage)
    requires HoldsWord(r, name, StageTag(stage))
    ensures ShowsStage(r, name, stage)
  {
  }

  lemma StageIndex(stage: Stage) returns (s: nat)
    ensures s < |STAGES| && STAGES[s] == stage && forall t :: 0 <= t < |STAGES| && STAGES[t] == stage ==> t == s
  {
    s := match stage case Lead => 0 case Qualified => 1 case Proposal => 2 case Won => 3 case Lost => 4;
  }

  /** An entity with any delete among the events appears in no view. */
  lemma DeletedInNoView(events: seq<DomainEvent>, e: DomainEvent, space: GroupId, board: EntityId, column: EntityId)
    requires e in events && e.action.Delete?
    ensures var records := Folded(map[], events);
            && Live(records, KeyOf(e)).None?
            && (forall kind :: kind == e.kind ==> e.id !in LiveIds(records, kind, space))
            && !OnColumn(records, KeyOf(e), board, column)
            && !OnBoard(records, KeyOf(e), board)
            && (e.kind == Deal ==> DealOf(records, e.id) == None) && (e.kind == Task ==> TaskOf(records, e.id) == None)
  {
    hide Folded;
    DeletedIsInvisible(events, e);
  }
}
