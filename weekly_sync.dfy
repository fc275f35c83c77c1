/** The weekly milestone sync as the object the script builds: its fields
    change step by step, and every method is proved to leave the state that
    the corresponding function of `WeeklySpec` describes. */
module WeeklySync {
  import opened Wrappers
  import opened Seqs
  import opened Service
  import opened WeeklyRules
  import opened WeeklySpec

  class TrelloWeeklySync {
    /** The service through `api_request`, with the error counter. */
    var api: Api
    /** `mapping['mappings']`. */
    var mappings: seq<Mapping>
    /** `mapping['last_updated']`. */
    var lastUpdated: Option<string>
    /** The other three counters of `stats`. */
    var stats: Stats
    /** Weekly board id, trigger label and list roles. */
    var config: Config

    /** The part of the object the steps of a run transform. */
    function Snapshot(): Sync
      reads this
    {
      Sync(api, mappings, stats)
    }

    /** `__init__`: loads the table and, when no list roles are configured,
        derives them from the weekly board. */
    constructor (weeklyBoardId: Id, triggerLabel: string, lists: map<string, Option<Id>>,
                 stored: StoredMapping, remote: State, faults: seq<bool>)
      ensures mappings == LoadMapping(stored).mappings
      ensures lastUpdated == LoadMapping(stored).lastUpdated
      ensures stats == Stats(0, 0, 0)
      ensures config.weeklyBoardId == weeklyBoardId && config.triggerLabel == triggerLabel
      ensures Faithful(api)
      ensures |lists| != 0 ==> api == Api(Apply, remote, faults, [], 0) && config.lists == lists
      ensures |lists| == 0 ==> (api, config.lists) == BoardLists(Api(Apply, remote, faults, [], 0), weeklyBoardId)
    {
      api := Api(Apply, remote, faults, [], 0);
      mappings := LoadMapping(stored).mappings;
      lastUpdated := LoadMapping(stored).lastUpdated;
      stats := Stats(0, 0, 0);
      config := Config(weeklyBoardId, triggerLabel, lists);
      new;
      if |lists| == 0 {
        var roles := GetBoardLists();
        config := config.(lists := roles);
      }
    }

    /** `api_request`. */
    method ApiRequest(r: Request) returns (resp: Option<Response>)
      modifies this`api
      ensures (api, resp) == Call(old(api), r)
    {
      var next;
      next, resp := Call(api, r).0, Call(api, r).1;
      api := next;
    }

    /** `get_board_lists`. */
    method GetBoardLists() returns (roles: map<string, Option<Id>>)
      modifies this`api
      ensures (api, roles) == BoardLists(old(api), config.weeklyBoardId)
    {
      var resp := ApiRequest(Request.GetBoardLists(config.weeklyBoardId));
      var lists := ListsOf(resp);
      if |lists| == 0 {
        return map[ThisWeek := None];
      }
      var m: map<string, Option<Id>> := map[];
      var i := 0;
      while i < |lists|
        invariant 0 <= i <= |lists|
        invariant m == KeyMap(lists[..i])
      {
        assert lists[..i + 1][..i] == lists[..i];
        m := m[ListKey(lists[i].name) := Some(lists[i].id)];
        i := i + 1;
      }
      assert lists[..i] == lists;
      if ThisWeek !in m {
        m := m[ThisWeek := Some(lists[0].id)];
      }
      roles := m;
    }

    /** `get_cards_with_label`. */
    method GetCardsWithLabel(board: Id, name: string) returns (cards: seq<Card>)
      modifies this`api
      ensures (api, cards) == FetchCardsWithLabel(old(api), board, name)
    {
      var resp := ApiRequest(GetBoardCards(board));
      var all := CardsOf(resp);
      ghost var fetched := api;
      cards := [];
      var i := 0;
      while i < |all|
        invariant 0 <= i <= |all|
        invariant cards == CardsWithLabel(all[..i], name)
        invariant api == fetched
      {
        var card := all[i];
        var tagged := false;
        var j := 0;
        while j < |card.labels| && !tagged
          invariant 0 <= j <= |card.labels|
          invariant tagged <==> exists k :: 0 <= k < j && card.labels[k].name == name
        {
          tagged := card.labels[j].name == name;
          j := j + 1;
        }
        assert tagged <==> AnyNamed(card.labels, name);
        assert all[..i + 1] == all[..i] + [card];
        CardsWithLabelSnoc(all[..i], card, name);
        if tagged {
          cards := cards + [card];
        }
        i := i + 1;
      }
      assert all[..i] == all;
    }

    /** `get_card`. */
    method GetCard(id: Id) returns (card: Option<Card>)
      modifies this`api
      ensures api == Call(old(api), Request.GetCard(id)).0
      ensures card == CardOf(Call(old(api), Request.GetCard(id)).1)
    {
      var resp := ApiRequest(Request.GetCard(id));
      card := CardOf(resp);
    }

    /** `find_mapping`. */
    method FindMapping(original: Option<Id>, weekly: Option<Id>) returns (r: Option<Mapping>)
      ensures r == FirstMatch(mappings, original, weekly)
    {
      var i := 0;
      while i < |mappings|
        invariant 0 <= i <= |mappings|
        invariant forall j :: 0 <= j < i ==> !Matches(mappings[j], original, weekly)
      {
        var m := mappings[i];
        if original.Some? && m.originalCardId == original.value {
          FirstMatchAt(mappings, original, weekly, i);
          return Some(m);
        }
        if weekly.Some? && m.weeklyCardId == weekly.value {
          FirstMatchAt(mappings, original, weekly, i);
          return Some(m);
        }
        i := i + 1;
      }
      FirstMatchSpec(mappings, original, weekly);
      return None;
    }

    /** `add_mapping`, stamped with `now`. */
    method AddMapping(original: Id, weekly: Id, board: Id, list: Id, now: string)
      modifies this`mappings
      ensures mappings == old(mappings) + [Mapping(original, weekly, board, list, now)]
    {
      mappings := mappings + [Mapping(original, weekly, board, list, now)];
    }

    /** `remove_mapping`. */
    method RemoveMapping(original: Option<Id>, weekly: Option<Id>)
      modifies this`mappings
      ensures mappings == Without(old(mappings), original, weekly)
    {
      mappings := Without(mappings, original, weekly);
    }

    /** The requests `copy_card_to_weekly` sends once the mirror `newId`
        exists: labels, members, then the comment on the original. */
    method MirrorCard(card: Card, newId: Id, provenance: Option<Id>)
      modifies this`api
      ensures api == SendAll(old(api), MirrorRequests(card, newId, provenance))
    {
      ghost var start := api;
      var ignored := ApiRequest(AddCardLabel(newId, provenance));
      ignored := ApiRequest(AddCardNewLabel(newId, "This Week", Orange));
      ghost var labelled := api;
      var i := 0;
      while i < |card.idMembers|
        invariant 0 <= i <= |card.idMembers|
        invariant api == SendAll(labelled, MemberRequests(newId, card.idMembers[..i]))
      {
        MemberRequestsSnoc(newId, card.idMembers, i);
        SendAllSnoc(labelled, MemberRequests(newId, card.idMembers[..i]), AddCardMember(newId, card.idMembers[i]));
        ignored := ApiRequest(AddCardMember(newId, card.idMembers[i]));
        i := i + 1;
      }
      assert card.idMembers[..i] == card.idMembers;
      ignored := ApiRequest(PostComment(card.id, AddedToWeekly));
      SendMirrorRequests(start, card, newId, provenance);
    }

    /** `copy_card_to_weekly`. */
    method CopyCardToWeekly(card: Card, board: ProjectBoard, now: string)
      requires ThisWeek in config.lists
      modifies this`api, this`mappings, this`stats
      ensures Snapshot() == CopyCard(old(Snapshot()), config, card, board, now)
    {
      ghost var s0 := Snapshot();
      var existing := FindMapping(Some(card.id), None);
      if existing.Some? {
        return;
      }
      var request := NewCardRequest(card, config.lists[ThisWeek]);
      var created := ApiRequest(request);
      var newId := CreatedId(created);
      if newId.None? {
        return;
      }
      MirrorCard(card, newId.value, board.weeklyLabelId);
      CopyCardCreated(s0, config, card, board, now, newId.value);
      AddMapping(card.id, newId.value, board.id, card.idList, now);
      stats := stats.(pulled := stats.pulled + 1);
    }

    /** The status actions of `sync_card_status` for two fetched cards;
        `count` is how many were sent. */
    method SendStatus(o: Card, w: Card, completed: Option<Id>) returns (count: nat)
      modifies this`api
      ensures api == SendAll(old(api), StatusRequests(o, w, completed))
      ensures count == |StatusRequests(o, w, completed)|
    {
      ghost var start := api;
      var ignored;
      count := 0;
      if Some(w.idList) == completed {
        if !o.closed {
          ignored := ApiRequest(PostComment(o.id, MarkedCompleted));
          count := count + 1;
        }
      }
      if o.closed {
        if Some(w.idList) != completed {
          ignored := ApiRequest(MoveCard(w.id, completed));
          count := count + 1;
        }
      }
      if Some(w.idList) == completed && !o.closed {
        SendAllOne(start, PostComment(o.id, MarkedCompleted));
      } else if o.closed && Some(w.idList) != completed {
        SendAllOne(start, MoveCard(w.id, completed));
      }
    }

    /** `sync_card_status`. */
    method SyncCardStatus(m: Mapping)
      requires Completed in config.lists
      modifies this`api, this`stats
      ensures Snapshot() == SyncCard(old(Snapshot()), config, m)
    {
      ghost var s0 := Snapshot();
      var original := GetCard(m.originalCardId);
      var weekly := GetCard(m.weeklyCardId);
      if original.None? || weekly.None? {
        return;
      }
      var count := SendStatus(original.value, weekly.value, config.lists[Completed]);
      stats := stats.(synced := stats.synced + count);
    }

    /** The requests `cleanup_removed_labels` sends for one entry, given
        its two fetched cards; `untouched` when the entry stays. */
    method SendTeardown(original: Option<Card>, weekly: Option<Card>, m: Mapping) returns (untouched: bool)
      modifies this`api
      ensures api == SendAll(old(api), TeardownOf(original, weekly, m, config.triggerLabel).1)
      ensures untouched <==> TeardownOf(original, weekly, m, config.triggerLabel).0 == Untouched
    {
      ghost var start := api;
      var ignored;
      untouched := false;
      if original.None? {
        if weekly.Some? {
          ignored := ApiRequest(DeleteCard(m.weeklyCardId));
          SendAllOne(start, DeleteCard(m.weeklyCardId));
        }
      } else if weekly.None? {
        ignored := ApiRequest(PostComment(original.value.id, RemovedCardDeleted));
        SendAllOne(start, PostComment(original.value.id, RemovedCardDeleted));
      } else {
        var originalHas := AnyNamed(original.value.labels, config.triggerLabel);
        var weeklyHas := AnyNamed(weekly.value.labels, config.triggerLabel);
        if !originalHas || !weeklyHas {
          var from := if !originalHas then OriginalCard else WeeklyBoard;
          ignored := ApiRequest(DeleteCard(m.weeklyCardId));
          ignored := ApiRequest(PostComment(original.value.id, RemovedLabel(from)));
          SendAllTwo(start, DeleteCard(m.weeklyCardId), PostComment(original.value.id, RemovedLabel(from)));
        } else {
          untouched := true;
        }
      }
    }

    /** One iteration of `cleanup_removed_labels`, on the entry `m`: every
        case but the last drops the entry and counts it as removed. */
    method CleanupEntry(m: Mapping)
      modifies this`api, this`mappings, this`stats
      ensures Snapshot() == CleanupStep(old(Snapshot()), config, m).0
    {
      var original := GetCard(m.originalCardId);
      var weekly := GetCard(m.weeklyCardId);
      var untouched := SendTeardown(original, weekly, m);
      if !untouched {
        RemoveMapping(None, Some(m.weeklyCardId));
        stats := stats.(removed := stats.removed + 1);
      }
    }

    /** `cleanup_removed_labels`: the loop runs over a copy of the table taken
        before it starts. */
    method CleanupRemovedLabels()
      modifies this`api, this`mappings, this`stats
      ensures Snapshot() == Cleanup(old(Snapshot()), config).0
    {
      ghost var s0 := Snapshot();
      var todo := mappings;
      var i := 0;
      while i < |todo|
        invariant 0 <= i <= |todo|
        invariant CleanupMappings(Snapshot(), config, todo[i..]).0 == CleanupMappings(s0, config, todo).0
      {
        ghost var before := Snapshot();
        CleanupEntry(todo[i]);
        CleanupAdvance(before, Snapshot(), config, todo, i);
        i := i + 1;
      }
    }

    /** `get_all_boards`. */
    method GetAllBoards() returns (boards: seq<BoardInfo>)
      modifies this`api
      ensures (api, boards) == OtherBoards(old(api), config.weeklyBoardId)
    {
      var resp := ApiRequest(GetMyBoards);
      var weekly := config.weeklyBoardId;
      boards := Filter(BoardsOf(resp), (b: BoardInfo) => b.id != weekly);
    }

    /** `get_or_create_project_label`. */
    method GetOrCreateProjectLabel(name: string) returns (id: Option<Id>)
      modifies this`api
      ensures (api, id) == ProjectLabel(old(api), config.weeklyBoardId, name)
    {
      var resp := ApiRequest(GetBoardLabels(config.weeklyBoardId));
      var labels := LabelsOf(resp);
      var i := 0;
      while i < |labels|
        invariant 0 <= i <= |labels|
        invariant forall j :: 0 <= j < i ==> labels[j].name != name
      {
        if labels[i].name == name {
          FindFirst(labels, (l: Label) => l.name == name, i);
          return Some(labels[i].id);
        }
        i := i + 1;
      }
      var created := ApiRequest(CreateLabel(config.weeklyBoardId, name, Palette[|labels| % |Palette|]));
      id := CreatedId(created);
    }

    /** The inner loop of `pull_cards_to_weekly`: mirror each card of one board. */
    method CopyCards(cards: seq<Card>, project: ProjectBoard, now: string)
      requires ThisWeek in config.lists
      modifies this`api, this`mappings, this`stats
      ensures Snapshot() == PullCards(old(Snapshot()), config, cards, project, now)
    {
      var j := 0;
      while j < |cards|
        invariant 0 <= j <= |cards|
        invariant PullCards(Snapshot(), config, cards[j..], project, now) == PullCards(old(Snapshot()), config, cards, project, now)
      {
        assert cards[j..][1..] == cards[j + 1..];
        CopyCardToWeekly(cards[j], project, now);
        j := j + 1;
      }
    }

    /** One iteration of `pull_cards_to_weekly`'s loop over boards. */
    method PullBoardToWeekly(b: BoardInfo, now: string)
      requires ThisWeek in config.lists
      modifies this`api, this`mappings, this`stats
      ensures Snapshot() == PullBoard(old(Snapshot()), config, b, now)
    {
      var cards := GetCardsWithLabel(b.id, config.triggerLabel);
      if |cards| > 0 {
        var labelId := GetOrCreateProjectLabel(b.name);
        CopyCards(cards, ProjectBoard(b.id, b.name, labelId), now);
      }
    }

    /** `pull_cards_to_weekly`. */
    method PullCardsToWeekly(now: string)
      requires ThisWeek in config.lists
      modifies this`api, this`mappings, this`stats
      ensures Snapshot() == Pull(old(Snapshot()), config, now)
    {
      var boards := GetAllBoards();
      var i := 0;
      while i < |boards|
        invariant 0 <= i <= |boards|
        invariant PullBoards(Snapshot(), config, boards[i..], now) == Pull(old(Snapshot()), config, now)
      {
        assert boards[i..][1..] == boards[i + 1..];
        PullBoardToWeekly(boards[i], now);
        i := i + 1;
      }
    }

    /** `sync_status_changes`. */
    method SyncStatusChanges()
      requires Completed in config.lists
      modifies this`api, this`stats
      ensures Snapshot() == SyncMappings(old(Snapshot()), config, mappings)
    {
      var i := 0;
      while i < |mappings|
        invariant 0 <= i <= |mappings|
        invariant SyncMappings(Snapshot(), config, mappings[i..]) == SyncMappings(old(Snapshot()), config, mappings)
      {
        assert mappings[i..][1..] == mappings[i + 1..];
        SyncCardStatus(mappings[i]);
        i := i + 1;
      }
    }

    /** `save_mapping`: stamps the table and returns the file it writes. */
    method SaveMapping(now: string) returns (file: MappingFile)
      modifies this`lastUpdated
      ensures lastUpdated == Some(now)
      ensures file == MappingFile(mappings, Some(now))
    {
      lastUpdated := Some(now);
      file := MappingFile(mappings, lastUpdated);
    }

    /** `run`: pull, sync, clean up, save.  `failed` is the exit status:
        set exactly when some request failed during the object's life. */
    method Run(syncedAt: string, savedAt: string) returns (file: MappingFile, failed: bool)
      requires ThisWeek in config.lists && Completed in config.lists
      modifies this`api, this`mappings, this`stats, this`lastUpdated
      ensures Snapshot() == RunSteps(old(Snapshot()), config, syncedAt)
      ensures file == MappingFile(mappings, Some(savedAt)) && lastUpdated == Some(savedAt)
      ensures failed <==> api.errors > 0
      ensures Faithful(old(api)) && TableInvariant(old(Snapshot())) ==> TableInvariant(Snapshot())
    {
      ghost var start := Snapshot();
      PullCardsToWeekly(syncedAt);
      SyncStatusChanges();
      CleanupRemovedLabels();
      file := SaveMapping(savedAt);
      failed := api.errors > 0;
      if Faithful(start.api) && TableInvariant(start) {
        RunKeepsInvariant(start, config, syncedAt);
      }
    }
  }
}
