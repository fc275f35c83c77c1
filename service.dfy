/** The remote task-board service, as both scripts see it through `api_request`:
    an abstract state that every request reads or updates, and a request that
    either answers or fails with no data.  Transport, authentication and URL
    construction are not part of this model. */
module Service {
  import opened Wrappers
  import opened Seqs

  /** Identifiers of boards, lists, labels, cards and members.  The service
      hands out fresh ones from `State.nextId`. */
  type Id = nat

  datatype Color = Blue | Green | Yellow | Orange | Red | Purple | Pink | Lime | Sky | Black

  datatype Label = Label(id: Id, idBoard: Id, name: string, color: Color)
  datatype ListInfo = ListInfo(id: Id, idBoard: Id, name: string)
  datatype BoardInfo = BoardInfo(id: Id, name: string)

  /** A card record.  The optional fields are the ones the scripts read with
      `dict.get(key, default)`: `None` stands for an absent key. */
  datatype Card = Card(
    id: Id,
    idBoard: Id,
    idList: Id,
    name: string,
    desc: Option<string>,
    due: Option<string>,
    shortUrl: Option<string>,
    url: Option<string>,
    labels: seq<Label>,
    idMembers: seq<Id>,
    closed: bool)

  /** Which side of a mirror lost the trigger label. */
  datatype Side = OriginalCard | WeeklyBoard

  /** The comments the weekly sync posts, by kind (the exact texts are output only). */
  datatype CommentKind =
    | AddedToWeekly
    | MarkedCompleted
    | RemovedCardDeleted
    | RemovedLabel(from: Side)

  datatype Comment = Comment(card: Id, kind: CommentKind)

  /** Where a new card goes in its list: the scripts only ever ask for the top. */
  datatype Position = Top

  /** Everything the credential can reach. */
  datatype State = State(
    boards: seq<BoardInfo>,
    lists: seq<ListInfo>,
    labels: seq<Label>,
    cards: seq<Card>,
    comments: seq<Comment>,
    nextId: nat)

  /** The requests the scripts send: one constructor per endpoint they use.
      A parameter that may be `None` in the scripts is an `Option`; the HTTP
      library drops such a parameter from the request. */
  datatype Request =
    | GetMyBoards
    | GetBoardLists(board: Id)
    | GetBoardLabels(board: Id)
    | GetBoardCards(board: Id)
    | GetCard(card: Id)
    | CreateCard(idList: Option<Id>, name: string, desc: string, pos: Position, due: Option<string>)
    | AddCardLabel(card: Id, labelId: Option<Id>)
    | AddCardNewLabel(card: Id, name: string, color: Color)
    | AddCardMember(card: Id, member: Id)
    | PostComment(card: Id, kind: CommentKind)
    | MoveCard(card: Id, idList: Option<Id>)
    | DeleteCard(card: Id)
    | CreateLabel(board: Id, name: string, color: Color)

  /** A successful answer, already decoded from JSON. */
  datatype Response =
    | Boards(boards: seq<BoardInfo>)
    | Lists(lists: seq<ListInfo>)
    | Labels(labels: seq<Label>)
    | Cards(cards: seq<Card>)
    | OneCard(card: Card)
    | Created(id: Id)
    | Done

  predicate BoardExists(s: State, board: Id) {
    exists b :: b in s.boards && b.id == board
  }

  function FindCard(cards: seq<Card>, id: Id): Option<Card> {
    Find(cards, (c: Card) => c.id == id)
  }

  /** `cards` with every record whose id is `c.id` replaced by `c`. */
  function ReplaceCard(cards: seq<Card>, c: Card): (r: seq<Card>)
    ensures |r| == |cards|
    ensures forall i :: 0 <= i < |r| ==> r[i] == if cards[i].id == c.id then c else cards[i]
  {
    if cards == [] then []
    else [if cards[0].id == c.id then c else cards[0]] + ReplaceCard(cards[1..], c)
  }

  /** Some label of the sequence carries exactly this name: the label test
      of both `get_cards_with_label` and `board_has_label`. */
  predicate AnyNamed(labels: seq<Label>, name: string) {
    exists l :: l in labels && l.name == name
  }

  /** The board has a label carrying exactly this name. */
  predicate BoardLabelNamed(s: State, board: Id, name: string) {
    exists l :: l in s.labels && l.idBoard == board && l.name == name
  }

  /** What the service does with a request that reaches it: the next state and
      its answer, or `None` when it rejects the request (an unknown card, list,
      label or board, or a missing required parameter). */
  function Apply(s: State, r: Request): (out: (State, Option<Response>))
    ensures out.0.boards == s.boards
    ensures s.labels <= out.0.labels
    ensures s.nextId <= out.0.nextId
    ensures out.1.None? ==> out.0 == s
    ensures (r.CreateCard? || r.CreateLabel?) && out.1.Some? ==>
              out.1 == Some(Created(s.nextId)) && out.0.nextId == s.nextId + 1
    ensures r.GetBoardLabels? && BoardExists(s, r.board) ==>
              out == (s, Some(Labels(Filter(s.labels, (l: Label) => l.idBoard == r.board))))
    ensures r.CreateLabel? && BoardExists(s, r.board) ==>
              out.1.Some? && out.0.labels == s.labels + [Label(s.nextId, r.board, r.name, r.color)]
  {
    match r
    case GetMyBoards =>
      (s, Some(Boards(s.boards)))
    case GetBoardLists(board) =>
      if BoardExists(s, board) then (s, Some(Lists(Filter(s.lists, (l: ListInfo) => l.idBoard == board))))
      else (s, None)
    case GetBoardLabels(board) =>
      if BoardExists(s, board) then (s, Some(Labels(Filter(s.labels, (l: Label) => l.idBoard == board))))
      else (s, None)
    case GetBoardCards(board) =>
      // the endpoint lists the open cards of the board
      if BoardExists(s, board) then (s, Some(Cards(Filter(s.cards, (c: Card) => c.idBoard == board && !c.closed))))
      else (s, None)
    case GetCard(card) =>
      var c := FindCard(s.cards, card);
      if c.Some? then (s, Some(OneCard(c.value))) else (s, None)
    case CreateCard(idList, name, desc, pos, due) =>
      var list := if idList.Some? then Find(s.lists, (l: ListInfo) => l.id == idList.value) else None;
      if list.None? then (s, None)
      else
        var c := Card(s.nextId, list.value.idBoard, list.value.id, name, Some(desc), due,
                      None, None, [], [], false);
        (s.(cards := [c] + s.cards, nextId := s.nextId + 1), Some(Created(s.nextId)))
    case AddCardLabel(card, labelId) =>
      var c := FindCard(s.cards, card);
      var l := if labelId.Some? then Find(s.labels, (x: Label) => x.id == labelId.value) else None;
      if c.None? || l.None? then (s, None)
      else (s.(cards := ReplaceCard(s.cards, c.value.(labels := c.value.labels + [l.value]))), Some(Done))
    case AddCardNewLabel(card, name, color) =>
      var c := FindCard(s.cards, card);
      if c.None? then (s, None)
      else
        var l := Label(s.nextId, c.value.idBoard, name, color);
        (s.(labels := s.labels + [l], cards := ReplaceCard(s.cards, c.value.(labels := c.value.labels + [l])),
            nextId := s.nextId + 1), Some(Done))
    case AddCardMember(card, member) =>
      var c := FindCard(s.cards, card);
      if c.None? then (s, None)
      else (s.(cards := ReplaceCard(s.cards, c.value.(idMembers := c.value.idMembers + [member]))), Some(Done))
    case PostComment(card, kind) =>
      if FindCard(s.cards, card).None? then (s, None)
      else (s.(comments := s.comments + [Comment(card, kind)]), Some(Done))
    case MoveCard(card, idList) =>
      var c := FindCard(s.cards, card);
      if c.None? then (s, None)
      else if idList.None? then (s, Some(Done))   // the update carries no field
      else
        var l := Find(s.lists, (l: ListInfo) => l.id == idList.value);
        if l.None? then (s, None)
        else (s.(cards := ReplaceCard(s.cards, c.value.(idList := l.value.id, idBoard := l.value.idBoard))), Some(Done))
    case DeleteCard(card) =>
      if FindCard(s.cards, card).None? then (s, None)
      else (s.(cards := Filter(s.cards, (c: Card) => c.id != card)), Some(Done))
    case CreateLabel(board, name, color) =>
      if BoardExists(s, board) then
        (s.(labels := s.labels + [Label(s.nextId, board, name, color)], nextId := s.nextId + 1),
         Some(Created(s.nextId)))
      else (s, None)
  }

  /** How a service answers a request that reaches it. */
  type Server = (State, Request) -> (State, Option<Response>)

  /** The service seen through `api_request`: how it answers, its state, the
      schedule of transport faults still to come (`true` = that request
      fails), the requests sent so far, and the error counter
      `stats['errors']`. */
  datatype Api = Api(server: Server, remote: State, faults: seq<bool>, sent: seq<Request>, errors: nat)

  /** The service answers every request as `Apply` says. */
  ghost predicate Faithful(a: Api) {
    forall s, r :: a.server(s, r) == Apply(s, r)
  }

  /** No transport fault is scheduled. */
  predicate NoFaults(a: Api) {
    forall i :: 0 <= i < |a.faults| ==> !a.faults[i]
  }

  /** One `api_request`: it is always sent; it fails when a fault is scheduled
      for it or the service rejects it, and then it counts one error, leaves
      the service as it was and returns `None`. */
  function Call(a: Api, r: Request): (out: (Api, Option<Response>))
    ensures out.0.server == a.server
    ensures out.0.sent == a.sent + [r]
    ensures out.0.faults == if a.faults == [] then [] else a.faults[1..]
    ensures out.1.None? <==> out.0.errors == a.errors + 1
    ensures out.1.Some? ==> out.0.errors == a.errors && (out.0.remote, out.1) == a.server(a.remote, r)
    ensures out.1.None? ==> out.0.remote == a.remote
    ensures a.faults != [] && a.faults[0] ==> out.1.None?
    ensures NoFaults(a) ==> NoFaults(out.0) && out.1 == a.server(a.remote, r).1
  {
    var fault := a.faults != [] && a.faults[0];
    var rest := if a.faults == [] then [] else a.faults[1..];
    var (next, answer) := a.server(a.remote, r);
    if fault || answer.None? then (a.(faults := rest, sent := a.sent + [r], errors := a.errors + 1), None)
    else (a.(remote := next, faults := rest, sent := a.sent + [r]), answer)
  }

  /** Requests sent one after the other whose answers are ignored. */
  function SendAll(a: Api, rs: seq<Request>): (b: Api)
    ensures b.server == a.server
    ensures b.sent == a.sent + rs
    ensures a.errors <= b.errors <= a.errors + |rs|
    ensures Faithful(a) ==> b.remote.boards == a.remote.boards && a.remote.nextId <= b.remote.nextId
    decreases |rs|
  {
    if rs == [] then a else SendAll(Call(a, rs[0]).0, rs[1..])
  }

  /** Sending `xs` then `ys` is sending `xs + ys`. */
  lemma {:induction false} SendAllConcat(a: Api, xs: seq<Request>, ys: seq<Request>)
    ensures SendAll(a, xs + ys) == SendAll(SendAll(a, xs), ys)
    decreases |xs|
  {
    if xs != [] {
      assert (xs + ys)[1..] == xs[1..] + ys;
      SendAllConcat(Call(a, xs[0]).0, xs[1..], ys);
    } else {
      assert xs + ys == ys;
    }
  }

  /** Sending one more request after `xs`. */
  lemma SendAllSnoc(a: Api, xs: seq<Request>, x: Request)
    ensures SendAll(a, xs + [x]) == Call(SendAll(a, xs), x).0
  {
    SendAllConcat(a, xs, [x]);
    assert [x][1..] == [];
  }

  /** Sending a single request. */
  lemma SendAllOne(a: Api, x: Request)
    ensures SendAll(a, [x]) == Call(a, x).0
  {
    assert [x][1..] == [];
  }

  /** Sending two requests. */
  lemma SendAllTwo(a: Api, x: Request, y: Request)
    ensures SendAll(a, [x, y]) == Call(Call(a, x).0, y).0
  {
    assert [x, y][1..] == [y];
    SendAllOne(Call(a, x).0, y);
  }

  /** The cards of a `GetCard` answer (a card dict is always truthy). */
  function CardOf(r: Option<Response>): Option<Card> {
    if r.Some? && r.value.OneCard? then Some(r.value.card) else None
  }

  /** The list of a collection answer, `[]` when the request failed. */
  function CardsOf(r: Option<Response>): seq<Card> {
    if r.Some? && r.value.Cards? then r.value.cards else []
  }

  function ListsOf(r: Option<Response>): seq<ListInfo> {
    if r.Some? && r.value.Lists? then r.value.lists else []
  }

  function LabelsOf(r: Option<Response>): seq<Label> {
    if r.Some? && r.value.Labels? then r.value.labels else []
  }

  function BoardsOf(r: Option<Response>): seq<BoardInfo> {
    if r.Some? && r.value.Boards? then r.value.boards else []
  }

  /** The id of a created resource, `None` when the creation failed. */
  function CreatedId(r: Option<Response>): Option<Id> {
    if r.Some? && r.value.Created? then Some(r.value.id) else None
  }
}
