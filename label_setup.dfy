/** The one-off script that makes sure every board reachable by the
    credential carries a "This Week" label: what each of its steps does to
    the service and to its counters, what a whole run guarantees, and the
    object that runs the steps. */
module ThisWeekLabel {
  import opened Wrappers
  import opened Seqs
  import opened Service

  /** `LABEL_NAME`. */
  const LabelName: string := "This Week"

  /** `LABEL_COLOR`. */
  const LabelColor: Color := Orange

  /** `stats['boards_scanned']`, `stats['labels_created']` and
      `stats['labels_already_exist']` (`stats['errors']` is `Api.errors`). */
  datatype Counters = Counters(boardsScanned: nat, labelsCreated: nat, labelsAlreadyExist: nat)

  /** The state a run transforms. */
  datatype Setup = Setup(api: Api, counters: Counters)

  // ------------------------------------------------------------ the steps

  /** `get_all_boards`: the boards of the member, `[]` when the fetch fails. */
  function AllBoards(a: Api): (out: (Api, seq<BoardInfo>))
    ensures out.0 == Call(a, GetMyBoards).0
    ensures Call(a, GetMyBoards).1.None? ==> out.1 == []
  {
    var (a1, r) := Call(a, GetMyBoards);
    (a1, BoardsOf(r))
  }

  /** `board_has_label`: one fetch of the board's labels; a failed or empty
      fetch reads as "no label". */
  function CheckBoard(a: Api, board: Id): (out: (Api, bool))
    ensures out.0 == Call(a, GetBoardLabels(board)).0
    ensures Call(a, GetBoardLabels(board)).1.None? ==> !out.1
    ensures out.1 <==> AnyNamed(LabelsOf(Call(a, GetBoardLabels(board)).1), LabelName)
  {
    var (a1, r) := Call(a, GetBoardLabels(board));
    var labels := LabelsOf(r);
    if |labels| == 0 then (a1, false) else (a1, AnyNamed(labels, LabelName))
  }

  /** `create_label`: one creation request; the counter of created labels
      moves exactly when the service answered. */
  function CreateOn(s: Setup, board: Id): (out: (Setup, bool))
    ensures out.0.api == Call(s.api, CreateLabel(board, LabelName, LabelColor)).0
    ensures out.1 <==> out.0.api.errors == s.api.errors
    ensures out.1 ==> out.0.counters == s.counters.(labelsCreated := s.counters.labelsCreated + 1)
    ensures !out.1 ==> out.0.counters == s.counters
  {
    var (a1, result) := Call(s.api, CreateLabel(board, LabelName, LabelColor));
    if result.Some? then (Setup(a1, s.counters.(labelsCreated := s.counters.labelsCreated + 1)), true)
    else (Setup(a1, s.counters), false)
  }

  /** One iteration of `setup_all_boards`'s loop. */
  function SetupBoard(s: Setup, b: BoardInfo): (r: Setup) {
    var (a1, has) := CheckBoard(s.api, b.id);
    if has then Setup(a1, s.counters.(labelsAlreadyExist := s.counters.labelsAlreadyExist + 1))
    else CreateOn(Setup(a1, s.counters), b.id).0
  }

  /** The loop of `setup_all_boards` over `boards`, in order. */
  function SetupBoards(s: Setup, boards: seq<BoardInfo>): (r: Setup)
    decreases |boards|
  {
    if boards == [] then s else SetupBoards(SetupBoard(s, boards[0]), boards[1..])
  }

  /** `setup_all_boards`: fetch the boards, record how many, then run the
      loop unless there are none. */
  function SetupAll(s: Setup): (r: Setup) {
    var (a1, boards) := AllBoards(s.api);
    var s1 := Setup(a1, s.counters.(boardsScanned := |boards|));
    if |boards| == 0 then s1 else SetupBoards(s1, boards)
  }

  // ----------------------------------------------------------- one board

  /** The requests one iteration sends: the label fetch, then a creation
      exactly when the fetch did not show the label.  At most one of the two
      counters moves, and the scanned count does not. */
  lemma SetupBoardSends(s: Setup, b: BoardInfo)
    ensures var has := CheckBoard(s.api, b.id).1;
            SetupBoard(s, b).api.sent ==
              s.api.sent + [GetBoardLabels(b.id)] + (if has then [] else [CreateLabel(b.id, LabelName, LabelColor)])
    ensures var r := SetupBoard(s, b).counters;
            r.boardsScanned == s.counters.boardsScanned &&
            s.counters.labelsCreated <= r.labelsCreated &&
            s.counters.labelsAlreadyExist <= r.labelsAlreadyExist &&
            r.labelsCreated + r.labelsAlreadyExist <= s.counters.labelsCreated + s.counters.labelsAlreadyExist + 1
    ensures CheckBoard(s.api, b.id).1 <==>
              SetupBoard(s, b).counters.labelsAlreadyExist == s.counters.labelsAlreadyExist + 1
  {
    var (a1, has) := CheckBoard(s.api, b.id);
    if !has {
      var r := Call(a1, CreateLabel(b.id, LabelName, LabelColor));
      assert r.0.sent == a1.sent + [CreateLabel(b.id, LabelName, LabelColor)];
    }
  }

  /** A failed label fetch reads as "no label": the iteration then sends a
      creation request whatever labels the board has, which is why a second
      run is free of effects only when no request fails. */
  lemma SetupBoardFetchFailure(s: Setup, b: BoardInfo)
    requires s.api.faults != [] && s.api.faults[0]
    ensures SetupBoard(s, b).api.sent == s.api.sent + [GetBoardLabels(b.id), CreateLabel(b.id, LabelName, LabelColor)]
    ensures SetupBoard(s, b).counters.labelsAlreadyExist == s.counters.labelsAlreadyExist
  {
    SetupBoardSends(s, b);
  }

  /** Against the service itself and with no failures, `board_has_label`
      answers exactly whether the board has a label named "This Week", and
      reading changes nothing remote. */
  lemma CheckBoardFaithful(a: Api, board: Id)
    requires Faithful(a) && NoFaults(a) && BoardExists(a.remote, board)
    ensures CheckBoard(a, board).1 <==> BoardLabelNamed(a.remote, board, LabelName)
    ensures CheckBoard(a, board).0.remote == a.remote
    ensures CheckBoard(a, board).0.errors == a.errors
  {
    var onBoard := (l: Label) => l.idBoard == board;
    var labels := Filter(a.remote.labels, onBoard);
    assert Call(a, GetBoardLabels(board)).1 == Some(Labels(labels));
    if BoardLabelNamed(a.remote, board, LabelName) {
      var l :| l in a.remote.labels && l.idBoard == board && l.name == LabelName;
      assert l in labels;
    }
    if AnyNamed(labels, LabelName) {
      var l :| l in labels && l.name == LabelName;
      assert l in a.remote.labels && l.idBoard == board;
    }
  }

  /** Against the service itself and with no failures, an existing board
      leaves one iteration carrying the label; labels are only ever added. */
  lemma SetupBoardLabels(s: Setup, b: BoardInfo)
    requires Faithful(s.api) && NoFaults(s.api) && BoardExists(s.api.remote, b.id)
    ensures BoardLabelNamed(SetupBoard(s, b).api.remote, b.id, LabelName)
    ensures s.api.remote.labels <= SetupBoard(s, b).api.remote.labels
    ensures SetupBoard(s, b).api.remote.boards == s.api.remote.boards
    ensures Faithful(SetupBoard(s, b).api) && NoFaults(SetupBoard(s, b).api)
  {
    CheckBoardFaithful(s.api, b.id);
    var (a1, has) := CheckBoard(s.api, b.id);
    if !has {
      var r := CreateLabel(b.id, LabelName, LabelColor);
      assert Call(a1, r).0.remote == Apply(a1.remote, r).0;
      assert Label(a1.remote.nextId, b.id, LabelName, LabelColor) in Call(a1, r).0.remote.labels;
    }
  }

  /** A label a state has, a state whose labels extend it has too. */
  lemma NamedPersists(s: State, t: State, board: Id)
    requires s.labels <= t.labels && BoardLabelNamed(s, board, LabelName)
    ensures BoardLabelNamed(t, board, LabelName)
  {
    var l :| l in s.labels && l.idBoard == board && l.name == LabelName;
    var i :| 0 <= i < |s.labels| && s.labels[i] == l;
    assert t.labels[i] == l;
  }

  // ------------------------------------------------------------ the loop

  /** The loop's counters: the scanned count stays, neither counter drops,
      and together they grow by at most one per board. */
  lemma {:induction false} SetupBoardsCounts(s: Setup, boards: seq<BoardInfo>)
    ensures var r := SetupBoards(s, boards).counters;
            r.boardsScanned == s.counters.boardsScanned &&
            s.counters.labelsCreated <= r.labelsCreated &&
            s.counters.labelsAlreadyExist <= r.labelsAlreadyExist &&
            r.labelsCreated + r.labelsAlreadyExist <=
              s.counters.labelsCreated + s.counters.labelsAlreadyExist + |boards|
    decreases |boards|
  {
    if boards != [] {
      SetupBoardSends(s, boards[0]);
      SetupBoardsCounts(SetupBoard(s, boards[0]), boards[1..]);
    }
  }

  /** Against the service itself and with no failures, after the loop every
      board it visited carries the label. */
  lemma {:induction false} SetupBoardsLabels(s: Setup, boards: seq<BoardInfo>)
    requires Faithful(s.api) && NoFaults(s.api)
    requires forall b :: b in boards ==> BoardExists(s.api.remote, b.id)
    ensures forall b :: b in boards ==> BoardLabelNamed(SetupBoards(s, boards).api.remote, b.id, LabelName)
    ensures s.api.remote.labels <= SetupBoards(s, boards).api.remote.labels
    ensures SetupBoards(s, boards).api.remote.boards == s.api.remote.boards
    ensures Faithful(SetupBoards(s, boards).api) && NoFaults(SetupBoards(s, boards).api)
    decreases |boards|
  {
    if boards != [] {
      var b := boards[0];
      var s1 := SetupBoard(s, b);
      SetupBoardLabels(s, b);
      var rest := boards[1..];
      forall c | c in rest ensures BoardExists(s1.api.remote, c.id) {
        assert c in boards;
        var w :| w in s.api.remote.boards && w.id == c.id;
        assert w in s1.api.remote.boards;
      }
      SetupBoardsLabels(s1, rest);
      var r := SetupBoards(s1, rest);
      NamedPersists(s1.api.remote, r.api.remote, b.id);
      forall c | c in boards ensures BoardLabelNamed(r.api.remote, c.id, LabelName) {
        if c != b {
          assert c in rest;
        }
      }
    }
  }

  /** Against the service itself and with no failures, a loop over boards
      that all carry the label already creates nothing, changes nothing
      remote and counts every board as already labelled. */
  lemma {:induction false} SetupBoardsLabelled(s: Setup, boards: seq<BoardInfo>)
    requires Faithful(s.api) && NoFaults(s.api)
    requires forall b :: b in boards ==>
               BoardExists(s.api.remote, b.id) && BoardLabelNamed(s.api.remote, b.id, LabelName)
    ensures SetupBoards(s, boards).api.remote == s.api.remote
    ensures SetupBoards(s, boards).api.errors == s.api.errors
    ensures SetupBoards(s, boards).counters ==
              s.counters.(labelsAlreadyExist := s.counters.labelsAlreadyExist + |boards|)
    ensures Faithful(SetupBoards(s, boards).api) && NoFaults(SetupBoards(s, boards).api)
    decreases |boards|
  {
    if boards != [] {
      var b := boards[0];
      CheckBoardFaithful(s.api, b.id);
      var s1 := SetupBoard(s, b);
      assert s1.api == Call(s.api, GetBoardLabels(b.id)).0;
      forall c | c in boards[1..] ensures c in boards { }
      SetupBoardsLabelled(s1, boards[1..]);
    }
  }

  /** One more iteration of the loop over `boards`. */
  lemma SetupAdvance(s: Setup, boards: seq<BoardInfo>, i: nat)
    requires i < |boards|
    ensures SetupBoards(SetupBoard(s, boards[i]), boards[i + 1..]) == SetupBoards(s, boards[i..])
  {
    assert boards[i..][1..] == boards[i + 1..];
  }

  // ------------------------------------------------------------ the run

  /** The counters of a run: `boards_scanned` is the number of boards
      fetched, and from fresh counters the created and already-present
      counts together never exceed it. */
  lemma SetupAllCounts(s: Setup)
    ensures SetupAll(s).counters.boardsScanned == |AllBoards(s.api).1|
    ensures SetupAll(s).counters.labelsCreated + SetupAll(s).counters.labelsAlreadyExist <=
              s.counters.labelsCreated + s.counters.labelsAlreadyExist + SetupAll(s).counters.boardsScanned
    ensures s.counters.labelsCreated <= SetupAll(s).counters.labelsCreated
    ensures s.counters == Counters(0, 0, 0) ==>
              SetupAll(s).counters.labelsCreated + SetupAll(s).counters.labelsAlreadyExist <=
              SetupAll(s).counters.boardsScanned
  {
    var (a1, boards) := AllBoards(s.api);
    var s1 := Setup(a1, s.counters.(boardsScanned := |boards|));
    if |boards| != 0 {
      SetupBoardsCounts(s1, boards);
    }
  }

  /** With no boards the run stops after the fetch: one request, and no
      label counted or created. */
  lemma SetupAllNoBoards(s: Setup)
    requires |AllBoards(s.api).1| == 0
    ensures SetupAll(s).api.sent == s.api.sent + [GetMyBoards]
    ensures SetupAll(s).counters == s.counters.(boardsScanned := 0)
  {
  }

  /** Against the service itself and with no failures, a run leaves every
      board carrying the label. */
  lemma SetupAllLabels(s: Setup)
    requires Faithful(s.api) && NoFaults(s.api)
    ensures forall b :: b in s.api.remote.boards ==> BoardLabelNamed(SetupAll(s).api.remote, b.id, LabelName)
    ensures SetupAll(s).api.remote.boards == s.api.remote.boards
    ensures Faithful(SetupAll(s).api) && NoFaults(SetupAll(s).api)
  {
    var (a1, boards) := AllBoards(s.api);
    assert boards == s.api.remote.boards && a1.remote == s.api.remote;
    var s1 := Setup(a1, s.counters.(boardsScanned := |boards|));
    forall b | b in boards ensures BoardExists(s1.api.remote, b.id) { }
    if |boards| != 0 {
      SetupBoardsLabels(s1, boards);
    }
  }

  /** Idempotence: against the service itself and with no failures, a second
      run creates no label, leaves the service exactly as the first run left
      it, and finds every board already labelled. */
  lemma SetupAllIdempotent(s: Setup)
    requires Faithful(s.api) && NoFaults(s.api)
    ensures var first := SetupAll(s);
            var second := SetupAll(first);
            second.api.remote == first.api.remote &&
            second.api.errors == first.api.errors &&
            second.counters.labelsCreated == first.counters.labelsCreated &&
            second.counters.labelsAlreadyExist == first.counters.labelsAlreadyExist + second.counters.boardsScanned
  {
    var first := SetupAll(s);
    SetupAllLabels(s);
    var (a1, boards) := AllBoards(first.api);
    assert boards == first.api.remote.boards && a1.remote == first.api.remote;
    var s1 := Setup(a1, first.counters.(boardsScanned := |boards|));
    forall b | b in boards
      ensures BoardExists(s1.api.remote, b.id) && BoardLabelNamed(s1.api.remote, b.id, LabelName)
    {
      assert b in s.api.remote.boards;
    }
    SetupBoardsLabelled(s1, boards);
  }

  // ---------------------------------------------------------- the object

  /** `LabelSetup`: the service it talks to and its counters. */
  class LabelSetup {
    var api: Api
    var stats: Counters

    function Snapshot(): Setup
      reads this
    {
      Setup(api, stats)
    }

    /** `__init__`: all counters at zero. */
    constructor (remote: State, faults: seq<bool>)
      ensures api == Api(Apply, remote, faults, [], 0) && Faithful(api)
      ensures stats == Counters(0, 0, 0)
    {
      api := Api(Apply, remote, faults, [], 0);
      stats := Counters(0, 0, 0);
    }

    /** `api_request`: a failed request counts one error and yields nothing. */
    method ApiRequest(r: Request) returns (resp: Option<Response>)
      modifies this`api
      ensures (api, resp) == Call(old(api), r)
    {
      var next;
      next, resp := Call(api, r).0, Call(api, r).1;
      api := next;
    }

    /** `get_all_boards`. */
    method GetAllBoards() returns (boards: seq<BoardInfo>)
      modifies this`api
      ensures (api, boards) == AllBoards(old(api))
    {
      var resp := ApiRequest(GetMyBoards);
      boards := BoardsOf(resp);
    }

    /** `board_has_label`. */
    method BoardHasLabel(board: Id) returns (has: bool)
      modifies this`api
      ensures (api, has) == CheckBoard(old(api), board)
    {
      var resp := ApiRequest(GetBoardLabels(board));
      var labels := LabelsOf(resp);
      if |labels| == 0 {
        return false;
      }
      has := false;
      var i := 0;
      while i < |labels| && !has
        invariant 0 <= i <= |labels|
        invariant has <==> exists k :: 0 <= k < i && labels[k].name == LabelName
      {
        has := labels[i].name == LabelName;
        i := i + 1;
      }
    }

    /** `create_label` (the board's name is only printed). */
    method CreateLabel(board: Id) returns (ok: bool)
      modifies this`api, this`stats
      ensures (Snapshot(), ok) == CreateOn(old(Snapshot()), board)
    {
      var result := ApiRequest(Request.CreateLabel(board, LabelName, LabelColor));
      if result.Some? {
        stats := stats.(labelsCreated := stats.labelsCreated + 1);
        return true;
      }
      return false;
    }

    /** One iteration of `setup_all_boards`'s loop. */
    method SetupOneBoard(b: BoardInfo)
      modifies this`api, this`stats
      ensures Snapshot() == SetupBoard(old(Snapshot()), b)
    {
      var has := BoardHasLabel(b.id);
      if has {
        stats := stats.(labelsAlreadyExist := stats.labelsAlreadyExist + 1);
      } else {
        var ignored := CreateLabel(b.id);
      }
    }

    /** `setup_all_boards`. */
    method SetupAllBoards()
      modifies this`api, this`stats
      ensures Snapshot() == SetupAll(old(Snapshot()))
    {
      var boards := GetAllBoards();
      stats := stats.(boardsScanned := |boards|);
      if |boards| == 0 {
        return;
      }
      ghost var scanned := Snapshot();
      var i := 0;
      while i < |boards|
        invariant 0 <= i <= |boards|
        invariant SetupBoards(Snapshot(), boards[i..]) == SetupBoards(scanned, boards)
      {
        ghost var before := Snapshot();
        SetupOneBoard(boards[i]);
        SetupAdvance(before, boards, i);
        i := i + 1;
      }
    }
  }
}
