/** The decision rules of the weekly milestone sync that do not talk to the
    service: the mapping table and its lookups, the card filter, the mirror's
    creation request, list-role derivation, the status rule and the teardown
    cases. */
module WeeklyRules {
  import opened Wrappers
  import opened Seqs
  import opened Service

  /** One entry of `mapping['mappings']`: an original card and its mirror. */
  datatype Mapping = Mapping(
    originalCardId: Id,
    weeklyCardId: Id,
    originalBoardId: Id,
    originalListId: Id,
    syncedAt: string)

  /** The persisted mapping file. */
  datatype MappingFile = MappingFile(mappings: seq<Mapping>, lastUpdated: Option<string>)

  /** What reading the mapping file gave. */
  datatype StoredMapping = Missing | Invalid | Parsed(file: MappingFile)

  /** A missing or unparsable mapping file starts an empty table. */
  function LoadMapping(stored: StoredMapping): (f: MappingFile)
    ensures stored.Parsed? ==> f == stored.file
    ensures !stored.Parsed? ==> f.mappings == [] && f.lastUpdated == None
  {
    match stored
    case Parsed(file) => file
    case _ => MappingFile([], None)
  }

  // ---------------------------------------------------------------- labels

  /** The fetched cards that carry a label named `name`, in fetch order. */
  function CardsWithLabel(cards: seq<Card>, name: string): seq<Card> {
    Filter(cards, (c: Card) => AnyNamed(c.labels, name))
  }

  /** Filtering one more card. */
  lemma CardsWithLabelSnoc(cards: seq<Card>, c: Card, name: string)
    ensures CardsWithLabel(cards + [c], name) ==
              CardsWithLabel(cards, name) + (if AnyNamed(c.labels, name) then [c] else [])
  {
    FilterSnoc(cards, c, (c: Card) => AnyNamed(c.labels, name));
  }

  /** The filter keeps exactly the cards carrying the label, each as often
      as it was fetched. */
  lemma CardsWithLabelExact(cards: seq<Card>, name: string)
    ensures forall c :: c in CardsWithLabel(cards, name) <==> c in cards && AnyNamed(c.labels, name)
    ensures forall c :: multiset(CardsWithLabel(cards, name))[c] ==
                          if AnyNamed(c.labels, name) then multiset(cards)[c] else 0
  {
    forall c ensures multiset(CardsWithLabel(cards, name))[c] ==
                       if AnyNamed(c.labels, name) then multiset(cards)[c] else 0 {
      FilterCount(cards, (c: Card) => AnyNamed(c.labels, name), c);
    }
  }

  /** The filter keeps fetch order. */
  lemma CardsWithLabelOrder(a: seq<Card>, b: seq<Card>, name: string)
    ensures CardsWithLabel(a + b, name) == CardsWithLabel(a, name) + CardsWithLabel(b, name)
  {
    FilterConcat(a, b, (c: Card) => AnyNamed(c.labels, name));
  }

  // --------------------------------------------------------- mapping table

  /** `find_mapping`/`remove_mapping` match on the original id when one is
      given, or on the weekly id when one is given. */
  predicate Matches(m: Mapping, original: Option<Id>, weekly: Option<Id>) {
    (original.Some? && m.originalCardId == original.value) ||
    (weekly.Some? && m.weeklyCardId == weekly.value)
  }

  /** The entry `find_mapping` returns. */
  function FirstMatch(ms: seq<Mapping>, original: Option<Id>, weekly: Option<Id>): Option<Mapping> {
    Find(ms, (m: Mapping) => Matches(m, original, weekly))
  }

  /** `find_mapping` returns the first matching entry, and `None` exactly
      when no entry matches. */
  lemma FirstMatchSpec(ms: seq<Mapping>, original: Option<Id>, weekly: Option<Id>)
    ensures var r := FirstMatch(ms, original, weekly);
            r.Some? ==> exists i :: 0 <= i < |ms| && ms[i] == r.value && Matches(ms[i], original, weekly) &&
                                    forall j :: 0 <= j < i ==> !Matches(ms[j], original, weekly)
    ensures FirstMatch(ms, original, weekly).None? <==> forall i :: 0 <= i < |ms| ==> !Matches(ms[i], original, weekly)
  {
    var p := (m: Mapping) => Matches(m, original, weekly);
    assert forall i :: 0 <= i < |ms| ==> (p(ms[i]) <==> Matches(ms[i], original, weekly));
  }

  /** The first matching entry is the one `find_mapping` returns. */
  lemma FirstMatchAt(ms: seq<Mapping>, original: Option<Id>, weekly: Option<Id>, i: nat)
    requires i < |ms| && Matches(ms[i], original, weekly)
    requires forall j :: 0 <= j < i ==> !Matches(ms[j], original, weekly)
    ensures FirstMatch(ms, original, weekly) == Some(ms[i])
  {
    FindFirst(ms, (m: Mapping) => Matches(m, original, weekly), i);
  }

  /** The table `remove_mapping` leaves: the entries that do not match. */
  function Without(ms: seq<Mapping>, original: Option<Id>, weekly: Option<Id>): (r: seq<Mapping>)
    ensures forall m :: m in r <==> m in ms && !Matches(m, original, weekly)
  {
    Filter(ms, (m: Mapping) => !Matches(m, original, weekly))
  }

  /** Removing twice is removing once. */
  lemma WithoutTwice(ms: seq<Mapping>, original: Option<Id>, weekly: Option<Id>)
    ensures Without(Without(ms, original, weekly), original, weekly) == Without(ms, original, weekly)
  {
    FilterIdempotent(ms, (m: Mapping) => !Matches(m, original, weekly));
  }

  /** Removal keeps the surviving entries in their original order. */
  lemma WithoutConcat(a: seq<Mapping>, b: seq<Mapping>, original: Option<Id>, weekly: Option<Id>)
    ensures Without(a + b, original, weekly) == Without(a, original, weekly) + Without(b, original, weekly)
  {
    FilterConcat(a, b, (m: Mapping) => !Matches(m, original, weekly));
  }

  /** Removing an id nobody matches changes nothing. */
  lemma WithoutAbsent(ms: seq<Mapping>, original: Option<Id>, weekly: Option<Id>)
    requires FirstMatch(ms, original, weekly).None?
    ensures Without(ms, original, weekly) == ms
  {
    FirstMatchSpec(ms, original, weekly);
    FilterAll(ms, (m: Mapping) => !Matches(m, original, weekly));
  }

  predicate DistinctOriginals(ms: seq<Mapping>) {
    forall i, j :: 0 <= i < j < |ms| ==> ms[i].originalCardId != ms[j].originalCardId
  }

  predicate DistinctWeeklies(ms: seq<Mapping>) {
    forall i, j :: 0 <= i < j < |ms| ==> ms[i].weeklyCardId != ms[j].weeklyCardId
  }

  /** The table relates original cards and mirrors one to one. */
  predicate OneToOne(ms: seq<Mapping>) {
    DistinctOriginals(ms) && DistinctWeeklies(ms)
  }

  /** The tail of a one-to-one table is one to one, and shares no id with the head. */
  lemma OneToOneTail(ms: seq<Mapping>)
    requires ms != [] && OneToOne(ms)
    ensures OneToOne(ms[1..])
    ensures forall x :: x in ms[1..] ==>
              x.originalCardId != ms[0].originalCardId && x.weeklyCardId != ms[0].weeklyCardId
  {
    var rest := ms[1..];
    assert forall i :: 0 <= i < |rest| ==> rest[i] == ms[i + 1];
  }

  /** An entry sharing no id with a one-to-one table extends it one to one. */
  lemma OneToOneCons(m: Mapping, t: seq<Mapping>)
    requires OneToOne(t)
    requires forall x :: x in t ==> x.originalCardId != m.originalCardId && x.weeklyCardId != m.weeklyCardId
    ensures OneToOne([m] + t)
  {
    var r := [m] + t;
    assert forall i :: 0 < i < |r| ==> r[i] == t[i - 1] && r[i] in t;
  }

  /** With distinct weekly ids, removing by one entry's weekly id removes that entry only. */
  lemma WithoutOnlyThat(a: seq<Mapping>, m: Mapping, b: seq<Mapping>)
    requires DistinctWeeklies(a + [m] + b)
    ensures Without(a + [m] + b, None, Some(m.weeklyCardId)) == a + b
  {
    var all := a + [m] + b;
    assert all[|a|] == m;
    forall x | x in a ensures x.weeklyCardId != m.weeklyCardId {
      var i :| 0 <= i < |a| && a[i] == x;
      assert all[i] == x;
    }
    forall x | x in b ensures x.weeklyCardId != m.weeklyCardId {
      var i :| 0 <= i < |b| && b[i] == x;
      assert all[|a| + 1 + i] == x;
    }
    WithoutConcat(a + [m], b, None, Some(m.weeklyCardId));
    WithoutConcat(a, [m], None, Some(m.weeklyCardId));
    assert Without([m], None, Some(m.weeklyCardId)) == [];
    WithoutAbsentAll(a, m.weeklyCardId);
    WithoutAbsentAll(b, m.weeklyCardId);
  }

  lemma WithoutAbsentAll(ms: seq<Mapping>, weekly: Id)
    requires forall x :: x in ms ==> x.weeklyCardId != weekly
    ensures Without(ms, None, Some(weekly)) == ms
  {
    FilterAll(ms, (x: Mapping) => !Matches(x, None, Some(weekly)));
  }

  // ------------------------------------------------------ mirror creation

  const BacklinkPrefix := "**Original Card:** "

  /** `card.get('shortUrl', card.get('url', ''))`. */
  function SourceUrl(card: Card): string {
    if card.shortUrl.Some? then card.shortUrl.value else card.url.GetOr("")
  }

  /** The mirror's description: a backlink line, a blank line, the original description. */
  function Description(card: Card): string {
    BacklinkPrefix + SourceUrl(card) + "\n\n" + card.desc.GetOr("")
  }

  /** The description reads, in order: the backlink prefix, the source URL,
      a blank line, the original description. */
  lemma DescriptionLayout(card: Card)
    ensures var d := Description(card);
            var p, u := |BacklinkPrefix|, |SourceUrl(card)|;
            |d| == p + u + 2 + |card.desc.GetOr("")| &&
            d[..p] == BacklinkPrefix &&
            d[p..p + u] == SourceUrl(card) &&
            d[p + u..p + u + 2] == "\n\n" &&
            d[p + u + 2..] == card.desc.GetOr("")
  {
  }

  /** A due date is copied only when it is a non-empty string. */
  function DueParam(card: Card): (due: Option<string>)
    ensures due.Some? <==> card.due.Some? && card.due.value != ""
    ensures due.Some? ==> due == card.due
  {
    if card.due.Some? && card.due.value != "" then card.due else None
  }

  /** The request that creates the mirror in the "this week" list. */
  function NewCardRequest(card: Card, thisWeek: Option<Id>): Request {
    CreateCard(thisWeek, card.name, Description(card), Top, DueParam(card))
  }

  /** The mirror is created in the "this week" list, at the top, under the
      original's name, and with its due date exactly when that is a
      non-empty string. */
  lemma NewCardRequestShape(card: Card, thisWeek: Option<Id>)
    ensures var r := NewCardRequest(card, thisWeek);
            r.CreateCard? && r.idList == thisWeek && r.name == card.name && r.pos == Top &&
            r.desc == Description(card) &&
            (r.due.Some? <==> card.due.Some? && card.due.value != "") &&
            (r.due.Some? ==> r.due == card.due)
  {
  }

  /** The requests that dress a freshly created mirror `newId`: the provenance
      label, the trigger label, every member, then the backlink comment on the
      original. */
  function MirrorRequests(card: Card, newId: Id, provenance: Option<Id>): seq<Request> {
    [AddCardLabel(newId, provenance), AddCardNewLabel(newId, "This Week", Orange)]
    + MemberRequests(newId, card.idMembers)
    + [PostComment(card.id, AddedToWeekly)]
  }

  function MemberRequests(newId: Id, members: seq<Id>): seq<Request> {
    seq(|members|, i requires 0 <= i < |members| => AddCardMember(newId, members[i]))
  }

  /** The dressing requests: provenance label, trigger label, one request per
      member in order, then the comment. */
  lemma MirrorRequestsShape(card: Card, newId: Id, provenance: Option<Id>)
    ensures var rs := MirrorRequests(card, newId, provenance);
            |rs| == |card.idMembers| + 3 &&
            rs[0] == AddCardLabel(newId, provenance) &&
            rs[1] == AddCardNewLabel(newId, "This Week", Orange) &&
            (forall i :: 0 <= i < |card.idMembers| ==> rs[i + 2] == AddCardMember(newId, card.idMembers[i])) &&
            rs[|rs| - 1] == PostComment(card.id, AddedToWeekly)
  {
    var rs := MirrorRequests(card, newId, provenance);
    var ms := MemberRequests(newId, card.idMembers);
    assert forall i :: 0 <= i < |card.idMembers| ==> rs[i + 2] == ms[i];
  }

  lemma MemberRequestsSnoc(newId: Id, members: seq<Id>, i: nat)
    requires i < |members|
    ensures MemberRequests(newId, members[..i + 1]) ==
              MemberRequests(newId, members[..i]) + [AddCardMember(newId, members[i])]
  {
  }

  /** Sending the dressing requests is sending the two labels, the members
      one by one, then the comment. */
  lemma SendMirrorRequests(a: Api, card: Card, newId: Id, provenance: Option<Id>)
    ensures SendAll(a, MirrorRequests(card, newId, provenance)) ==
              Call(SendAll(Call(Call(a, AddCardLabel(newId, provenance)).0,
                                AddCardNewLabel(newId, "This Week", Orange)).0,
                           MemberRequests(newId, card.idMembers)),
                   PostComment(card.id, AddedToWeekly)).0
  {
    var labels := [AddCardLabel(newId, provenance), AddCardNewLabel(newId, "This Week", Orange)];
    var members := MemberRequests(newId, card.idMembers);
    var post := PostComment(card.id, AddedToWeekly);
    SendAllConcat(a, labels + members, [post]);
    SendAllConcat(a, labels, members);
    SendAllSnoc(a, [labels[0]], labels[1]);
    assert labels == [labels[0]] + [labels[1]];
    assert SendAll(SendAll(a, labels + members), [post]) == Call(SendAll(a, labels + members), post).0;
  }

  // ------------------------------------------------------------ list roles

  function LowerChar(c: char): char {
    if 'A' <= c <= 'Z' then (c as int + 32) as char else c
  }

  predicate IsUpper(c: char) { 'A' <= c <= 'Z' }

  /** A list's key: its name lower-cased, spaces replaced by underscores. */
  function ListKey(name: string): (k: string)
    ensures |k| == |name|
    ensures forall i :: 0 <= i < |name| ==> k[i] == if name[i] == ' ' then '_' else LowerChar(name[i])
    ensures forall i :: 0 <= i < |k| ==> k[i] != ' ' && !IsUpper(k[i])
  {
    if name == [] then []
    else [if name[0] == ' ' then '_' else LowerChar(name[0])] + ListKey(name[1..])
  }

  /** Every list's key mapped to its id, a later list overwriting an earlier one. */
  function KeyMap(lists: seq<ListInfo>): (m: map<string, Option<Id>>)
    ensures m.Keys == set l | l in lists :: ListKey(l.name)
    decreases |lists|
  {
    if lists == [] then map[]
    else
      var last := lists[|lists| - 1];
      var init := lists[..|lists| - 1];
      assert forall l :: l in lists <==> l in init || l == last;
      KeyMap(init)[ListKey(last.name) := Some(last.id)]
  }

  /** The key of the last list carrying it maps to that list's id. */
  lemma {:induction false} KeyMapLastWins(lists: seq<ListInfo>, i: nat)
    requires i < |lists|
    requires forall j :: i < j < |lists| ==> ListKey(lists[j].name) != ListKey(lists[i].name)
    ensures ListKey(lists[i].name) in KeyMap(lists)
    ensures KeyMap(lists)[ListKey(lists[i].name)] == Some(lists[i].id)
    decreases |lists|
  {
    if i < |lists| - 1 {
      var init := lists[..|lists| - 1];
      assert init[i] == lists[i];
      KeyMapLastWins(init, i);
    }
  }

  const ThisWeek := "this_week"
  const Completed := "completed"

  /** The roles `get_board_lists` derives from the lists of the weekly board. */
  function ListRoles(lists: seq<ListInfo>): (roles: map<string, Option<Id>>)
    ensures ThisWeek in roles
    ensures lists == [] ==> roles == map[ThisWeek := None]
    ensures lists != [] ==> roles.Keys == (set l | l in lists :: ListKey(l.name)) + {ThisWeek}
    ensures lists != [] ==> forall k :: k in KeyMap(lists) ==> roles[k] == KeyMap(lists)[k]
    ensures lists != [] && (forall l :: l in lists ==> ListKey(l.name) != ThisWeek) ==>
              roles[ThisWeek] == Some(lists[0].id)
  {
    if lists == [] then map[ThisWeek := None]
    else
      var m := KeyMap(lists);
      if ThisWeek in m then m else m[ThisWeek := Some(lists[0].id)]
  }

  // ------------------------------------------------------------ status rule

  /** The actions `sync_card_status` takes once both cards were fetched: a
      completion comment on the original, or a move of the mirror. */
  function StatusRequests(original: Card, weekly: Card, completed: Option<Id>): (rs: seq<Request>)
    ensures PostComment(original.id, MarkedCompleted) in rs <==>
              Some(weekly.idList) == completed && !original.closed
    ensures MoveCard(weekly.id, completed) in rs <==>
              original.closed && Some(weekly.idList) != completed
    ensures |rs| <= 1
    ensures forall r :: r in rs ==> r == PostComment(original.id, MarkedCompleted) || r == MoveCard(weekly.id, completed)
  {
    var comment := if Some(weekly.idList) == completed && !original.closed
                   then [PostComment(original.id, MarkedCompleted)] else [];
    var move := if original.closed && Some(weekly.idList) != completed
                then [MoveCard(weekly.id, completed)] else [];
    comment + move
  }

  // ------------------------------------------------------------- teardown

  /** The four cases of `cleanup_removed_labels`. */
  datatype Teardown = OriginalGone | MirrorGone | LabelRemoved(from: Side) | Untouched

  predicate IsDelete(r: Request) { r.DeleteCard? }
  predicate IsComment(r: Request) { r.PostComment? }

  /** The case a mapping falls in, given what fetching its two cards returned,
      and the requests that case sends; the first matching case wins. */
  function TeardownOf(original: Option<Card>, weekly: Option<Card>, m: Mapping, trigger: string)
    : (t: (Teardown, seq<Request>))
    ensures t.0 == OriginalGone <==> original.None?
    ensures t.0 == MirrorGone <==> original.Some? && weekly.None?
    ensures t.0 == Untouched <==> (original.Some? && weekly.Some? &&
              AnyNamed(original.value.labels, trigger) && AnyNamed(weekly.value.labels, trigger))
    ensures t.0 == LabelRemoved(OriginalCard) <==> (original.Some? && weekly.Some? &&
              !AnyNamed(original.value.labels, trigger))
    ensures t.0 == LabelRemoved(WeeklyBoard) <==> (original.Some? && weekly.Some? &&
              AnyNamed(original.value.labels, trigger) && !AnyNamed(weekly.value.labels, trigger))
    ensures |Filter(t.1, IsDelete)| <= 1 && |Filter(t.1, IsComment)| <= 1
    ensures forall r :: r in t.1 && r.DeleteCard? ==> r.card == m.weeklyCardId
    ensures t.0 == OriginalGone ==> t.1 == if weekly.Some? then [DeleteCard(m.weeklyCardId)] else []
    ensures t.0 == MirrorGone ==> t.1 == [PostComment(original.value.id, RemovedCardDeleted)]
    ensures t.0.LabelRemoved? ==>
              t.1 == [DeleteCard(m.weeklyCardId), PostComment(original.value.id, RemovedLabel(t.0.from))]
    ensures t.0 == Untouched ==> t.1 == []
  {
    if original.None? then
      (OriginalGone, if weekly.Some? then [DeleteCard(m.weeklyCardId)] else [])
    else if weekly.None? then
      (MirrorGone, [PostComment(original.value.id, RemovedCardDeleted)])
    else
      var originalHas := AnyNamed(original.value.labels, trigger);
      var weeklyHas := AnyNamed(weekly.value.labels, trigger);
      if !originalHas || !weeklyHas then
        var from := if !originalHas then OriginalCard else WeeklyBoard;
        (LabelRemoved(from), [DeleteCard(m.weeklyCardId), PostComment(original.value.id, RemovedLabel(from))])
      else
        (Untouched, [])
  }
}
