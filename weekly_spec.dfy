/** What each step of the weekly milestone sync does to the run's state (the
    service as seen through the API, the mapping table and the counters), as
    functions of the state before it; and what those steps preserve. */
module WeeklySpec {
  import opened Wrappers
  import opened Seqs
  import opened Service
  import opened WeeklyRules

  /** The configuration a run uses: the weekly board, the trigger label name
      and the list roles. */
  datatype Config = Config(weeklyBoardId: Id, triggerLabel: string, lists: map<string, Option<Id>>)

  /** `stats['pulled']`, `stats['synced']` and `stats['removed']`
      (`stats['errors']` is `Api.errors`). */
  datatype Stats = Stats(pulled: nat, synced: nat, removed: nat)

  /** The state the steps of a run transform. */
  datatype Sync = Sync(api: Api, mappings: seq<Mapping>, stats: Stats)

  /** The source board a card is mirrored from, with its provenance label on
      the weekly board (`None` when that label could not be obtained). */
  datatype ProjectBoard = ProjectBoard(id: Id, name: string, weeklyLabelId: Option<Id>)

  /** The colours provenance labels cycle through. */
  const Palette: seq<Color> := [Blue, Green, Yellow, Orange, Red, Purple, Pink, Lime, Sky, Black]

  /** Every mirror id in the table was handed out by the service already. */
  predicate Allocated(s: Sync) {
    forall i :: 0 <= i < |s.mappings| ==> s.mappings[i].weeklyCardId < s.api.remote.nextId
  }

  /** The table invariant a run keeps. */
  predicate TableInvariant(s: Sync) {
    OneToOne(s.mappings) && Allocated(s)
  }

  // ------------------------------------------------------------- reading

  /** `get_board_lists`. */
  function BoardLists(a: Api, weekly: Id): (out: (Api, map<string, Option<Id>>))
    ensures out.0 == Call(a, GetBoardLists(weekly)).0
    ensures Call(a, GetBoardLists(weekly)).1.None? ==> out.1 == map[ThisWeek := None]
  {
    var (a1, r) := Call(a, GetBoardLists(weekly));
    (a1, ListRoles(ListsOf(r)))
  }

  /** `get_cards_with_label`: the board's open cards carrying the label. */
  function FetchCardsWithLabel(a: Api, board: Id, name: string): (out: (Api, seq<Card>))
    ensures out.0 == Call(a, GetBoardCards(board)).0
    ensures Call(a, GetBoardCards(board)).1.None? ==> out.1 == []
  {
    var (a1, r) := Call(a, GetBoardCards(board));
    (a1, CardsWithLabel(CardsOf(r), name))
  }

  /** `get_all_boards`: the boards of the member except the weekly board. */
  function OtherBoards(a: Api, weekly: Id): (out: (Api, seq<BoardInfo>))
    ensures out.0 == Call(a, GetMyBoards).0
    ensures forall b :: b in out.1 <==> b in BoardsOf(Call(a, GetMyBoards).1) && b.id != weekly
  {
    var (a1, r) := Call(a, GetMyBoards);
    (a1, Filter(BoardsOf(r), (b: BoardInfo) => b.id != weekly))
  }

  /** `get_or_create_project_label`: the weekly board's label named after the
      source board, created with the next palette colour when none exists. */
  function ProjectLabel(a: Api, weekly: Id, name: string): (out: (Api, Option<Id>))
    ensures var (a1, r) := Call(a, GetBoardLabels(weekly));
            var existing := Find(LabelsOf(r), (l: Label) => l.name == name);
            if existing.Some? then out == (a1, Some(existing.value.id))
            else var create := CreateLabel(weekly, name, Palette[|LabelsOf(r)| % 10]);
                 out.0.sent == a.sent + [GetBoardLabels(weekly), create] &&
                 out.1 == CreatedId(Call(a1, create).1)
    ensures out.0.server == a.server
    ensures Faithful(a) ==> a.remote.nextId <= out.0.remote.nextId
  {
    var (a1, r) := Call(a, GetBoardLabels(weekly));
    var labels := LabelsOf(r);
    var existing := Find(labels, (l: Label) => l.name == name);
    if existing.Some? then (a1, Some(existing.value.id))
    else
      var (a2, created) := Call(a1, CreateLabel(weekly, name, Palette[|labels| % |Palette|]));
      (a2, CreatedId(created))
  }

  /** The first label of the weekly board carrying `name`, the one
      `get_or_create_project_label` looks for. */
  function NamedOnBoard(s: State, weekly: Id, name: string): Option<Label> {
    Find(Filter(s.labels, (l: Label) => l.idBoard == weekly), (l: Label) => l.name == name)
  }

  /** Against the service itself and with no failures, a label already there
      is reused and nothing remote changes. */
  lemma ProjectLabelExisting(a: Api, weekly: Id, name: string)
    requires Faithful(a) && NoFaults(a) && BoardExists(a.remote, weekly)
    requires NamedOnBoard(a.remote, weekly, name).Some?
    ensures ProjectLabel(a, weekly, name).1 == Some(NamedOnBoard(a.remote, weekly, name).value.id)
    ensures ProjectLabel(a, weekly, name).0.remote == a.remote
  {
    var r := Call(a, GetBoardLabels(weekly));
    assert r.1 == Some(Labels(Filter(a.remote.labels, (l: Label) => l.idBoard == weekly)));
  }

  /** Against the service itself and with no failures, a missing label is
      created on the weekly board, and it is then the one found by name. */
  lemma ProjectLabelCreates(a: Api, weekly: Id, name: string)
    requires Faithful(a) && NoFaults(a) && BoardExists(a.remote, weekly)
    requires NamedOnBoard(a.remote, weekly, name).None?
    ensures var out := ProjectLabel(a, weekly, name);
            out.1 == Some(a.remote.nextId) &&
            NamedOnBoard(out.0.remote, weekly, name).Some? &&
            NamedOnBoard(out.0.remote, weekly, name).value.id == a.remote.nextId &&
            Faithful(out.0) && NoFaults(out.0) && BoardExists(out.0.remote, weekly)
  {
    var onBoard := (l: Label) => l.idBoard == weekly;
    var named := (l: Label) => l.name == name;
    var (a1, r) := Call(a, GetBoardLabels(weekly));
    var labels := Filter(a.remote.labels, onBoard);
    assert r == Some(Labels(labels)) && a1.remote == a.remote;
    var color := Palette[|labels| % |Palette|];
    var (a2, c) := Call(a1, CreateLabel(weekly, name, color));
    var made := Label(a.remote.nextId, weekly, name, color);
    assert c == Some(Created(a.remote.nextId));
    assert a2.remote.labels == a.remote.labels + [made];
    assert a2.remote.boards == a.remote.boards;
    FilterSnoc(a.remote.labels, made, onBoard);
    FindFirst(labels + [made], named, |labels|);
  }

  /** Against the service itself and with no failures, get-or-create yields
      a label of the weekly board named after the source board, and asking
      again finds that same label and creates nothing: each source board gets
      one provenance label, which later calls reuse. */
  lemma ProjectLabelReuse(a: Api, weekly: Id, name: string)
    requires Faithful(a) && NoFaults(a) && BoardExists(a.remote, weekly)
    ensures var out := ProjectLabel(a, weekly, name);
            out.1.Some? &&
            (exists l :: l in out.0.remote.labels && l.id == out.1.value && l.idBoard == weekly && l.name == name) &&
            ProjectLabel(out.0, weekly, name).1 == out.1 &&
            ProjectLabel(out.0, weekly, name).0.remote == out.0.remote
  {
    var out := ProjectLabel(a, weekly, name);
    if NamedOnBoard(a.remote, weekly, name).Some? {
      ProjectLabelExisting(a, weekly, name);
      ProjectLabelExisting(out.0, weekly, name);
    } else {
      ProjectLabelCreates(a, weekly, name);
      ProjectLabelExisting(out.0, weekly, name);
    }
    var l := NamedOnBoard(out.0.remote, weekly, name).value;
    assert l in Filter(out.0.remote.labels, (l: Label) => l.idBoard == weekly);
  }

  // ---------------------------------------------------------------- copy

  /** `copy_card_to_weekly`. */
  function CopyCard(s: Sync, cfg: Config, card: Card, board: ProjectBoard, now: string): (r: Sync)
    requires ThisWeek in cfg.lists
    ensures r.stats.synced == s.stats.synced && r.stats.removed == s.stats.removed
    ensures r.stats.pulled == s.stats.pulled ==> r.mappings == s.mappings
    ensures r.stats.pulled != s.stats.pulled ==>
              r.stats.pulled == s.stats.pulled + 1 && |r.mappings| == |s.mappings| + 1 &&
              r.mappings == s.mappings + [Mapping(card.id, r.mappings[|s.mappings|].weeklyCardId,
                                                  board.id, card.idList, now)]
    ensures r.api.server == s.api.server
  {
    if FirstMatch(s.mappings, Some(card.id), None).Some? then s
    else
      var (a1, created) := Call(s.api, NewCardRequest(card, cfg.lists[ThisWeek]));
      var newId := CreatedId(created);
      if newId.None? then s.(api := a1)
      else
        Sync(SendAll(a1, MirrorRequests(card, newId.value, board.weeklyLabelId)),
             s.mappings + [Mapping(card.id, newId.value, board.id, card.idList, now)],
             s.stats.(pulled := s.stats.pulled + 1))
  }

  /** What mirroring a card does: nothing when the card already has an
      entry; otherwise the creation request goes out first, and an entry is
      added (and counted) exactly when the service created the mirror, whose
      id the service handed out just then. */
  lemma CopyCardOutcome(s: Sync, cfg: Config, card: Card, board: ProjectBoard, now: string)
    requires ThisWeek in cfg.lists
    ensures FirstMatch(s.mappings, Some(card.id), None).Some? ==> CopyCard(s, cfg, card, board, now) == s
    ensures CopyCard(s, cfg, card, board, now).stats.pulled == s.stats.pulled + 1 <==>
              FirstMatch(s.mappings, Some(card.id), None).None? &&
              CreatedId(Call(s.api, NewCardRequest(card, cfg.lists[ThisWeek])).1).Some?
    ensures FirstMatch(s.mappings, Some(card.id), None).None? ==>
              |CopyCard(s, cfg, card, board, now).api.sent| > |s.api.sent| &&
              CopyCard(s, cfg, card, board, now).api.sent[|s.api.sent|] == NewCardRequest(card, cfg.lists[ThisWeek])
    ensures Faithful(s.api) ==> s.api.remote.nextId <= CopyCard(s, cfg, card, board, now).api.remote.nextId
    ensures Faithful(s.api) && CopyCard(s, cfg, card, board, now).stats.pulled != s.stats.pulled ==>
              CopyCard(s, cfg, card, board, now).mappings[|s.mappings|].weeklyCardId == s.api.remote.nextId &&
              s.api.remote.nextId < CopyCard(s, cfg, card, board, now).api.remote.nextId
  {
    if FirstMatch(s.mappings, Some(card.id), None).None? {
      var request := NewCardRequest(card, cfg.lists[ThisWeek]);
      var (a1, created) := Call(s.api, request);
      if CreatedId(created).Some? {
        var rest := MirrorRequests(card, CreatedId(created).value, board.weeklyLabelId);
        assert SendAll(a1, rest).sent == s.api.sent + [request] + rest;
      }
    }
  }

  /** The result of mirroring a card that has no entry yet, once the
      creation request answered with `newId`. */
  lemma CopyCardCreated(s: Sync, cfg: Config, card: Card, board: ProjectBoard, now: string, newId: Id)
    requires ThisWeek in cfg.lists
    requires FirstMatch(s.mappings, Some(card.id), None).None?
    requires CreatedId(Call(s.api, NewCardRequest(card, cfg.lists[ThisWeek])).1) == Some(newId)
    ensures CopyCard(s, cfg, card, board, now) ==
              Sync(SendAll(Call(s.api, NewCardRequest(card, cfg.lists[ThisWeek])).0,
                           MirrorRequests(card, newId, board.weeklyLabelId)),
                   s.mappings + [Mapping(card.id, newId, board.id, card.idList, now)],
                   s.stats.(pulled := s.stats.pulled + 1))
  {
  }

  /** Mirroring a card keeps the table one to one and allocated. */
  lemma CopyCardKeepsInvariant(s: Sync, cfg: Config, card: Card, board: ProjectBoard, now: string)
    requires ThisWeek in cfg.lists
    requires Faithful(s.api) && TableInvariant(s)
    ensures TableInvariant(CopyCard(s, cfg, card, board, now))
  {
    var r := CopyCard(s, cfg, card, board, now);
    CopyCardOutcome(s, cfg, card, board, now);
    FirstMatchSpec(s.mappings, Some(card.id), None);
    if r.stats.pulled != s.stats.pulled {
      var n := |s.mappings|;
      assert r.mappings[..n] == s.mappings;
      assert forall i :: 0 <= i < n ==> r.mappings[i] == s.mappings[i];
      assert FirstMatch(s.mappings, Some(card.id), None).None?;
      assert forall i :: 0 <= i < n ==> !Matches(s.mappings[i], Some(card.id), None);
    }
  }

  /** The cards of one board, mirrored in fetch order. */
  function PullCards(s: Sync, cfg: Config, cards: seq<Card>, board: ProjectBoard, now: string): (r: Sync)
    requires ThisWeek in cfg.lists
    ensures s.mappings <= r.mappings
    ensures s.stats.pulled <= r.stats.pulled
    ensures |r.mappings| - |s.mappings| == r.stats.pulled - s.stats.pulled
    ensures r.stats.synced == s.stats.synced && r.stats.removed == s.stats.removed
    ensures r.api.server == s.api.server
    ensures Faithful(s.api) ==> s.api.remote.nextId <= r.api.remote.nextId
    decreases |cards|
  {
    if cards == [] then s
    else PullCards(CopyCard(s, cfg, cards[0], board, now), cfg, cards[1..], board, now)
  }

  /** One iteration of `pull_cards_to_weekly`'s loop over boards. */
  function PullBoard(s: Sync, cfg: Config, b: BoardInfo, now: string): (r: Sync)
    requires ThisWeek in cfg.lists
    ensures s.mappings <= r.mappings
    ensures s.stats.pulled <= r.stats.pulled
    ensures |r.mappings| - |s.mappings| == r.stats.pulled - s.stats.pulled
    ensures r.stats.synced == s.stats.synced && r.stats.removed == s.stats.removed
    ensures r.api.server == s.api.server
    ensures Faithful(s.api) ==> s.api.remote.nextId <= r.api.remote.nextId
  {
    var (a1, cards) := FetchCardsWithLabel(s.api, b.id, cfg.triggerLabel);
    if |cards| > 0 then
      var (a2, labelId) := ProjectLabel(a1, cfg.weeklyBoardId, b.name);
      PullCards(s.(api := a2), cfg, cards, ProjectBoard(b.id, b.name, labelId), now)
    else
      s.(api := a1)
  }

  function PullBoards(s: Sync, cfg: Config, boards: seq<BoardInfo>, now: string): (r: Sync)
    requires ThisWeek in cfg.lists
    ensures s.mappings <= r.mappings
    ensures s.stats.pulled <= r.stats.pulled
    ensures |r.mappings| - |s.mappings| == r.stats.pulled - s.stats.pulled
    ensures r.stats.synced == s.stats.synced && r.stats.removed == s.stats.removed
    ensures r.api.server == s.api.server
    ensures Faithful(s.api) ==> s.api.remote.nextId <= r.api.remote.nextId
    decreases |boards|
  {
    if boards == [] then s
    else PullBoards(PullBoard(s, cfg, boards[0], now), cfg, boards[1..], now)
  }

  /** `pull_cards_to_weekly`. */
  function Pull(s: Sync, cfg: Config, now: string): (r: Sync)
    requires ThisWeek in cfg.lists
    ensures s.mappings <= r.mappings
    ensures |r.mappings| - |s.mappings| == r.stats.pulled - s.stats.pulled
    ensures r.stats.synced == s.stats.synced && r.stats.removed == s.stats.removed
    ensures r.api.server == s.api.server
    ensures Faithful(s.api) ==> s.api.remote.nextId <= r.api.remote.nextId
  {
    var (a1, boards) := OtherBoards(s.api, cfg.weeklyBoardId);
    PullBoards(s.(api := a1), cfg, boards, now)
  }

  lemma {:induction false} PullCardsKeepsInvariant(s: Sync, cfg: Config, cards: seq<Card>, board: ProjectBoard, now: string)
    requires ThisWeek in cfg.lists
    requires Faithful(s.api) && TableInvariant(s)
    ensures TableInvariant(PullCards(s, cfg, cards, board, now))
    decreases |cards|
  {
    if cards != [] {
      CopyCardKeepsInvariant(s, cfg, cards[0], board, now);
      PullCardsKeepsInvariant(CopyCard(s, cfg, cards[0], board, now), cfg, cards[1..], board, now);
    }
  }

  lemma {:induction false} PullBoardsKeepsInvariant(s: Sync, cfg: Config, boards: seq<BoardInfo>, now: string)
    requires ThisWeek in cfg.lists
    requires Faithful(s.api) && TableInvariant(s)
    ensures TableInvariant(PullBoards(s, cfg, boards, now))
    decreases |boards|
  {
    if boards != [] {
      var b := boards[0];
      var (a1, cards) := FetchCardsWithLabel(s.api, b.id, cfg.triggerLabel);
      if |cards| > 0 {
        var (a2, labelId) := ProjectLabel(a1, cfg.weeklyBoardId, b.name);
        PullCardsKeepsInvariant(s.(api := a2), cfg, cards, ProjectBoard(b.id, b.name, labelId), now);
      }
      PullBoardsKeepsInvariant(PullBoard(s, cfg, b, now), cfg, boards[1..], now);
    }
  }

  /** Pulling keeps every original card and every mirror in at most one entry. */
  lemma PullKeepsInvariant(s: Sync, cfg: Config, now: string)
    requires ThisWeek in cfg.lists
    requires Faithful(s.api) && TableInvariant(s)
    ensures TableInvariant(Pull(s, cfg, now))
  {
    var (a1, boards) := OtherBoards(s.api, cfg.weeklyBoardId);
    PullBoardsKeepsInvariant(s.(api := a1), cfg, boards, now);
  }

  // --------------------------------------------------------- status sync

  /** `sync_card_status`: fetch both cards; when both exist, send the status
      actions and count them. */
  function SyncCard(s: Sync, cfg: Config, m: Mapping): (r: Sync)
    requires Completed in cfg.lists
    ensures r.mappings == s.mappings
    ensures r.stats.pulled == s.stats.pulled && r.stats.removed == s.stats.removed
    ensures s.stats.synced <= r.stats.synced <= s.stats.synced + 1
    ensures |r.api.sent| == |s.api.sent| + 2 + (r.stats.synced - s.stats.synced)
    ensures r.api.server == s.api.server
    ensures Faithful(s.api) ==> s.api.remote.nextId <= r.api.remote.nextId
  {
    var (a1, ro) := Call(s.api, GetCard(m.originalCardId));
    var (a2, rw) := Call(a1, GetCard(m.weeklyCardId));
    var original, weekly := CardOf(ro), CardOf(rw);
    if original.None? || weekly.None? then s.(api := a2)
    else
      var actions := StatusRequests(original.value, weekly.value, cfg.lists[Completed]);
      Sync(SendAll(a2, actions), s.mappings, s.stats.(synced := s.stats.synced + |actions|))
  }

  /** What `sync_card_status` sends: both fetches, then the status actions
      when both cards exist, and nothing more; it counts exactly the actions. */
  lemma SyncCardRequests(s: Sync, cfg: Config, m: Mapping)
    requires Completed in cfg.lists
    ensures var (a1, ro) := Call(s.api, GetCard(m.originalCardId));
            var (a2, rw) := Call(a1, GetCard(m.weeklyCardId));
            var actions := if CardOf(ro).Some? && CardOf(rw).Some?
                           then StatusRequests(CardOf(ro).value, CardOf(rw).value, cfg.lists[Completed])
                           else [];
            SyncCard(s, cfg, m).api.sent == s.api.sent + [GetCard(m.originalCardId), GetCard(m.weeklyCardId)] + actions &&
            SyncCard(s, cfg, m).stats.synced == s.stats.synced + |actions|
  {
  }

  /** `sync_status_changes` over the entries `ms`. */
  function SyncMappings(s: Sync, cfg: Config, ms: seq<Mapping>): (r: Sync)
    requires Completed in cfg.lists
    ensures r.mappings == s.mappings
    ensures r.stats.pulled == s.stats.pulled && r.stats.removed == s.stats.removed
    ensures s.stats.synced <= r.stats.synced <= s.stats.synced + |ms|
    ensures |r.api.sent| == |s.api.sent| + 2 * |ms| + (r.stats.synced - s.stats.synced)
    ensures r.api.server == s.api.server
    ensures Faithful(s.api) ==> s.api.remote.nextId <= r.api.remote.nextId
    decreases |ms|
  {
    if ms == [] then s else SyncMappings(SyncCard(s, cfg, ms[0]), cfg, ms[1..])
  }

  // ------------------------------------------------------------- cleanup

  /** One iteration of `cleanup_removed_labels`, with the case it fell in. */
  function CleanupStep(s: Sync, cfg: Config, m: Mapping): (r: (Sync, Teardown))
    ensures r.0.stats.pulled == s.stats.pulled && r.0.stats.synced == s.stats.synced
    ensures r.1 == Untouched ==> r.0.mappings == s.mappings && r.0.stats.removed == s.stats.removed
    ensures r.1 != Untouched ==> r.0.mappings == Without(s.mappings, None, Some(m.weeklyCardId)) &&
                                 r.0.stats.removed == s.stats.removed + 1
    ensures r.0.api.server == s.api.server
    ensures Faithful(s.api) ==> s.api.remote.nextId <= r.0.api.remote.nextId
  {
    var (a1, ro) := Call(s.api, GetCard(m.originalCardId));
    var (a2, rw) := Call(a1, GetCard(m.weeklyCardId));
    var (t, requests) := TeardownOf(CardOf(ro), CardOf(rw), m, cfg.triggerLabel);
    if t == Untouched then (s.(api := a2), t)
    else
      (Sync(SendAll(a2, requests), Without(s.mappings, None, Some(m.weeklyCardId)),
            s.stats.(removed := s.stats.removed + 1)), t)
  }

  /** A failed fetch reads as a deleted card: when the fetch of the original
      fails, the entry is dropped as if the original were gone, even if the
      card still exists on the service, and the mirror is deleted whenever
      its own fetch answered. */
  lemma CleanupFetchFailure(s: Sync, cfg: Config, m: Mapping)
    requires s.api.faults != [] && s.api.faults[0]
    ensures CleanupStep(s, cfg, m).1 == OriginalGone
    ensures CleanupStep(s, cfg, m).0.mappings == Without(s.mappings, None, Some(m.weeklyCardId))
    ensures CleanupStep(s, cfg, m).0.stats.removed == s.stats.removed + 1
    ensures var a1 := Call(s.api, GetCard(m.originalCardId)).0;
            var mirror := CardOf(Call(a1, GetCard(m.weeklyCardId)).1);
            CleanupStep(s, cfg, m).0.api.sent ==
              s.api.sent + [GetCard(m.originalCardId), GetCard(m.weeklyCardId)] +
              (if mirror.Some? then [DeleteCard(m.weeklyCardId)] else [])
  {
    var a1 := Call(s.api, GetCard(m.originalCardId)).0;
    var a2 := Call(a1, GetCard(m.weeklyCardId)).0;
    if CardOf(Call(a1, GetCard(m.weeklyCardId)).1).Some? {
      SendAllOne(a2, DeleteCard(m.weeklyCardId));
    }
  }

  /** The loop of `cleanup_removed_labels` over the snapshot `todo`, with the
      case of each entry. */
  function CleanupMappings(s: Sync, cfg: Config, todo: seq<Mapping>): (r: (Sync, seq<Teardown>))
    ensures |r.1| == |todo|
    ensures r.0.stats.pulled == s.stats.pulled && r.0.stats.synced == s.stats.synced
    ensures r.0.api.server == s.api.server
    ensures Faithful(s.api) ==> s.api.remote.nextId <= r.0.api.remote.nextId
    decreases |todo|
  {
    if todo == [] then (s, [])
    else
      var (s1, t) := CleanupStep(s, cfg, todo[0]);
      var (s2, ts) := CleanupMappings(s1, cfg, todo[1..]);
      (s2, [t] + ts)
  }

  /** `cleanup_removed_labels`: the loop over a copy of the table. */
  function Cleanup(s: Sync, cfg: Config): (r: (Sync, seq<Teardown>)) {
    CleanupMappings(s, cfg, s.mappings)
  }

  /** The entries whose case is `Untouched`, in order. */
  function KeptOnly(ms: seq<Mapping>, cases: seq<Teardown>): (r: seq<Mapping>)
    requires |ms| == |cases|
    ensures |r| <= |ms|
    ensures forall x :: x in r ==> x in ms
  {
    if ms == [] then []
    else (if cases[0] == Untouched then [ms[0]] else []) + KeptOnly(ms[1..], cases[1..])
  }

  lemma DistinctWeekliesDrop(a: seq<Mapping>, m: Mapping, b: seq<Mapping>)
    requires DistinctWeeklies(a + [m] + b)
    ensures DistinctWeeklies(a + b)
  {
    var all, ab := a + [m] + b, a + b;
    forall i, j | 0 <= i < j < |ab| ensures ab[i].weeklyCardId != ab[j].weeklyCardId {
      var i' := if i < |a| then i else i + 1;
      var j' := if j < |a| then j else j + 1;
      assert ab[i] == all[i'] && ab[j] == all[j'];
    }
  }

  /** The table after one cleanup step, when the entry sits between `kept`
      and `rest`. */
  lemma CleanupStepShape(s: Sync, cfg: Config, kept: seq<Mapping>, m: Mapping, rest: seq<Mapping>)
    requires s.mappings == kept + [m] + rest
    requires DistinctWeeklies(kept + [m] + rest)
    ensures CleanupStep(s, cfg, m).1 == Untouched ==> CleanupStep(s, cfg, m).0.mappings == (kept + [m]) + rest
    ensures CleanupStep(s, cfg, m).1 != Untouched ==>
              CleanupStep(s, cfg, m).0.mappings == kept + rest && DistinctWeeklies(kept + rest)
  {
    if CleanupStep(s, cfg, m).1 != Untouched {
      WithoutOnlyThat(kept, m, rest);
      DistinctWeekliesDrop(kept, m, rest);
    }
  }

  lemma CleanupUnfold(s: Sync, cfg: Config, todo: seq<Mapping>)
    requires todo != []
    ensures CleanupMappings(s, cfg, todo) ==
              (CleanupMappings(CleanupStep(s, cfg, todo[0]).0, cfg, todo[1..]).0,
               [CleanupStep(s, cfg, todo[0]).1] + CleanupMappings(CleanupStep(s, cfg, todo[0]).0, cfg, todo[1..]).1)
  {
  }

  /** The state after the loop over `todo`: the first step, then the rest. */
  lemma CleanupUnfoldState(s: Sync, cfg: Config, todo: seq<Mapping>)
    requires todo != []
    ensures CleanupMappings(s, cfg, todo).0 == CleanupMappings(CleanupStep(s, cfg, todo[0]).0, cfg, todo[1..]).0
  {
  }

  /** One more iteration of the cleanup loop over the snapshot `todo`. */
  lemma CleanupAdvance(before: Sync, after: Sync, cfg: Config, todo: seq<Mapping>, i: nat)
    requires i < |todo| && after == CleanupStep(before, cfg, todo[i]).0
    ensures CleanupMappings(after, cfg, todo[i + 1..]).0 == CleanupMappings(before, cfg, todo[i..]).0
  {
    CleanupUnfoldState(before, cfg, todo[i..]);
    assert todo[i..][1..] == todo[i + 1..];
  }

  lemma KeptOnlyCons(m: Mapping, rest: seq<Mapping>, t: Teardown, ts: seq<Teardown>)
    requires |rest| == |ts|
    ensures KeptOnly([m] + rest, [t] + ts) == (if t == Untouched then [m] else []) + KeptOnly(rest, ts)
  {
    assert ([m] + rest)[1..] == rest;
    assert ([t] + ts)[1..] == ts;
  }

  lemma {:induction false} CleanupShape(s: Sync, cfg: Config, kept: seq<Mapping>, todo: seq<Mapping>)
    requires s.mappings == kept + todo
    requires DistinctWeeklies(kept + todo)
    ensures CleanupMappings(s, cfg, todo).0.mappings == kept + KeptOnly(todo, CleanupMappings(s, cfg, todo).1)
    ensures CleanupMappings(s, cfg, todo).0.stats.removed ==
              s.stats.removed + |todo| - |KeptOnly(todo, CleanupMappings(s, cfg, todo).1)|
    decreases |todo|
  {
    if todo == [] {
      assert kept + todo == kept;
    } else {
      var m, rest := todo[0], todo[1..];
      assert todo == [m] + rest;
      assert kept + todo == kept + [m] + rest;
      var step := CleanupStep(s, cfg, m);
      var tail := CleanupMappings(step.0, cfg, rest);
      CleanupUnfold(s, cfg, todo);
      KeptOnlyCons(m, rest, step.1, tail.1);
      CleanupStepShape(s, cfg, kept, m, rest);
      var k := KeptOnly(rest, tail.1);
      if step.1 == Untouched {
        assert (kept + [m]) + rest == kept + todo;
        CleanupShape(step.0, cfg, kept + [m], rest);
        ConcatAssoc(kept, [m], k);
      } else {
        CleanupShape(step.0, cfg, kept, rest);
        assert [] + k == k;
      }
    }
  }

  /** With distinct mirror ids, cleanup leaves exactly the untouched entries,
      in their original order, and counts every other entry as removed. */
  lemma CleanupKeepsUntouched(s: Sync, cfg: Config)
    requires DistinctWeeklies(s.mappings)
    ensures Cleanup(s, cfg).0.mappings == KeptOnly(s.mappings, Cleanup(s, cfg).1)
    ensures Cleanup(s, cfg).0.stats.removed == s.stats.removed + (|s.mappings| - |Cleanup(s, cfg).0.mappings|)
  {
    CleanupShape(s, cfg, [], s.mappings);
    assert [] + s.mappings == s.mappings;
  }

  lemma {:induction false} KeptOnlyOneToOne(ms: seq<Mapping>, cases: seq<Teardown>)
    requires |ms| == |cases|
    requires OneToOne(ms)
    ensures OneToOne(KeptOnly(ms, cases))
    decreases |ms|
  {
    if ms != [] {
      OneToOneTail(ms);
      KeptOnlyOneToOne(ms[1..], cases[1..]);
      var tail := KeptOnly(ms[1..], cases[1..]);
      if cases[0] == Untouched {
        OneToOneCons(ms[0], tail);
      } else {
        assert KeptOnly(ms, cases) == [] + tail;
      }
    }
  }

  /** Cleanup keeps the table one to one and allocated. */
  lemma CleanupKeepsInvariant(s: Sync, cfg: Config)
    requires Faithful(s.api) && TableInvariant(s)
    ensures TableInvariant(Cleanup(s, cfg).0)
  {
    var (r, cases) := Cleanup(s, cfg);
    CleanupKeepsUntouched(s, cfg);
    KeptOnlyOneToOne(s.mappings, cases);
    forall i | 0 <= i < |r.mappings| ensures r.mappings[i].weeklyCardId < r.api.remote.nextId {
      assert r.mappings[i] in s.mappings;
    }
  }

  // ------------------------------------------------------------------ run

  /** The steps of `run` in order: pull, status sync over the table, cleanup. */
  function RunSteps(s: Sync, cfg: Config, now: string): (r: Sync)
    requires ThisWeek in cfg.lists && Completed in cfg.lists
  {
    var pulled := Pull(s, cfg, now);
    var synced := SyncMappings(pulled, cfg, pulled.mappings);
    Cleanup(synced, cfg).0
  }

  /** A whole run keeps the mapping table one to one. */
  lemma RunKeepsInvariant(s: Sync, cfg: Config, now: string)
    requires ThisWeek in cfg.lists && Completed in cfg.lists
    requires Faithful(s.api) && TableInvariant(s)
    ensures TableInvariant(RunSteps(s, cfg, now))
  {
    var pulled := Pull(s, cfg, now);
    PullKeepsInvariant(s, cfg, now);
    var synced := SyncMappings(pulled, cfg, pulled.mappings);
    CleanupKeepsInvariant(synced, cfg);
  }
}
