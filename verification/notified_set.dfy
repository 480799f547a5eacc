/**
 The notified-set reconciler of `main.py`. It loads the member map, stops
 when that map is empty, and then walks the in-progress records: a record
 is sent once (a task or a conference message, by its kind) and its id is
 then recorded with its title, so the state only grows and a record in it
 is never sent again. The member query response, the in-progress query
 response, the loaded state and the user map are parameters.

 Line 33 of `main.py` calls `get_select`, which `notion_client.py` does not
 define; `AsWritten` models that call and `Corrected` the intended
 `get_select_value`.
 */
module NotifiedSet {
  import opened PyJson
  import opened Config
  import opened Effects
  import NotionClient
  import DiscordClient
  import Dates

  /** Notified page id -> title. */
  type State = map<Json, Json>

  /** Member page id -> member title, as `retrieve_member_dict` builds it. */
  type MemberMap = map<Json, Json>

  /** Which accessor line 33 calls for the record's kind. */
  datatype KindAccessor = AsWritten | Corrected

  /** `ntn.get_select(record, 種類)` as written, or `get_select_value` as intended. */
  function KindOf(accessor: KindAccessor, record: Json): (r: Result<Json>)
    ensures accessor == AsWritten ==> r == Err(AttributeError)
    ensures accessor == Corrected ==> r == NotionClient.GetSelectValue(record, PropKind)
  {
    match accessor
    case AsWritten => Err(AttributeError)
    case Corrected => NotionClient.GetSelectValue(record, PropKind)
  }

  /** `relation.get("id")` for one relation entry (None when absent). */
  function RelationId(entry: Json): Json
    requires entry.JObj?
  {
    if "id" in entry.fields then entry.fields["id"] else JNull
  }

  /**
   `[member_dict[a.get("id")] for a in relations]`: every related id must be
   a member id, else KeyError; an entry that is not a dict has no `get`.
   */
  function AssigneeNames(relations: seq<Json>, members: MemberMap): (r: Result<seq<Json>>)
    ensures r.Ok? <==> forall i :: 0 <= i < |relations| ==>
              relations[i].JObj? && Hashable(RelationId(relations[i])) && RelationId(relations[i]) in members
    ensures r.Ok? ==> |r.value| == |relations|
    ensures r.Ok? ==> forall i :: 0 <= i < |relations| ==> r.value[i] == members[RelationId(relations[i])]
    ensures r.Err? ==> r.error in {AttributeError, TypeError, KeyError}
    ensures ((forall i :: 0 <= i < |relations| ==> relations[i].JObj? && Hashable(RelationId(relations[i])))
             && (exists i :: 0 <= i < |relations| && RelationId(relations[i]) !in members)) ==> r == Err(KeyError)
  {
    if |relations| == 0 then Ok([])
    else
      var entry := relations[0];
      if !entry.JObj? then Err(AttributeError)
      else if !Hashable(RelationId(entry)) then Err(TypeError)
      else if RelationId(entry) !in members then Err(KeyError)
      else
        var rest :- AssigneeNames(relations[1..], members);
        assert forall i :: 1 <= i < |relations| ==> relations[i] == relations[1..][i - 1];
        Ok([members[RelationId(entry)]] + rest)
  }

  /** What the loop body does with one record. */
  datatype Outcome =
    | Skipped                                 // a `continue`
    | Notified(id: Json, title: Json, post: Event)

  /** The record's `id` as `record.get("id")` reads it. */
  predicate IdIs(record: Json, id: Json) {
    GetOr(record, "id", JNull) == Ok(id)
  }

  /** What lines 16-31 read from a record that is not skipped. */
  datatype Reading = Reading(id: Json, title: Json, deadline: Json, names: seq<Json>)

  /**
   Lines 16-31 of `main` for one record: no id, an id already notified, or
   no title skip the record (None) before anything else is read; otherwise
   the deadline and the assignees' member titles are read.
   */
  function Read(record: Json, members: MemberMap, state: State): (r: Result<Option<Reading>>)
    ensures forall id :: (IdIs(record, id) && !Truthy(id)) ==> r == Ok(None)
    ensures forall id :: (IdIs(record, id) && Truthy(id) && Hashable(id) && id in state) ==> r == Ok(None)
    ensures forall id :: (IdIs(record, id) && Truthy(id) && Hashable(id) && id !in state
                          && NotionClient.GetTitle(record).Ok? && !Truthy(NotionClient.GetTitle(record).value))
                         ==> r == Ok(None)
    ensures r.Ok? && r.value.Some? ==> var rd := r.value.value;
              && IdIs(record, rd.id) && Truthy(rd.id) && Hashable(rd.id) && rd.id !in state
              && NotionClient.GetTitle(record) == Ok(rd.title) && Truthy(rd.title)
              && NotionClient.GetDeadline(record) == Ok(rd.deadline)
    ensures r.Ok? && r.value.Some? ==> var rd := r.value.value;
              && NotionClient.GetRelationRecords(record, PropAssignee).Ok?
              && var relation := NotionClient.GetRelationRecords(record, PropAssignee).value;
              && Elements(relation, AttributeError).Ok?
              && AssigneeNames(Elements(relation, AttributeError).value, members) == Ok(rd.names)
  {
    var id :- GetOr(record, "id", JNull);
    if !Truthy(id) then Ok(None)
    else if !Hashable(id) then Err(TypeError)
    else if id in state then Ok(None)
    else
      var title :- NotionClient.GetTitle(record);
      if !Truthy(title) then Ok(None)
      else
        var deadline :- NotionClient.GetDeadline(record);
        var relation :- NotionClient.GetRelationRecords(record, PropAssignee);
        var relations :- Elements(relation, AttributeError);
        var names :- AssigneeNames(relations, members);
        Ok(Some(Reading(id, title, deadline, names)))
  }

  /**
   Lines 35-40: kind タスク sends a task message and kind 会議 a conference
   message, both with the deadline; any other kind skips the record.
   */
  function Dispatch(rd: Reading, kind: Json, userMap: DiscordClient.UserMap): (r: Result<Outcome>)
    ensures kind == JStr(KindTask) ==> r.Ok? == DiscordClient.SendTaskMessage(rd.title, rd.id, rd.names, rd.deadline, userMap).Ok?
    ensures kind == JStr(KindConference) ==>
              r.Ok? == DiscordClient.SendConferenceMessage(rd.title, rd.id, rd.names, rd.deadline, userMap).Ok?
    ensures kind != JStr(KindTask) && kind != JStr(KindConference) ==> r == Ok(Skipped)
    ensures r.Ok? && kind == JStr(KindTask) ==>
              r.value == Notified(rd.id, rd.title,
                                  DiscordClient.SendTaskMessage(rd.title, rd.id, rd.names, rd.deadline, userMap).value.post)
    ensures r.Ok? && kind == JStr(KindConference) ==>
              r.value == Notified(rd.id, rd.title,
                                  DiscordClient.SendConferenceMessage(rd.title, rd.id, rd.names, rd.deadline, userMap).value.post)
    ensures r.Ok? && r.value.Notified? ==> r.value.post.Post?
  {
    if kind == JStr(KindTask) then
      var sent :- DiscordClient.SendTaskMessage(rd.title, rd.id, rd.names, rd.deadline, userMap);
      Ok(Notified(rd.id, rd.title, sent.post))
    else if kind == JStr(KindConference) then
      var sent :- DiscordClient.SendConferenceMessage(rd.title, rd.id, rd.names, rd.deadline, userMap);
      Ok(Notified(rd.id, rd.title, sent.post))
    else Ok(Skipped)
  }

  /** The loop body of `main` for one record. */
  function Step(record: Json, members: MemberMap, state: State, userMap: DiscordClient.UserMap,
                accessor: KindAccessor): (r: Result<Outcome>)
    ensures Read(record, members, state) == Ok(None) ==> r == Ok(Skipped)
    ensures Read(record, members, state).Err? ==> r == Err(Read(record, members, state).error)
    ensures r.Ok? && r.value.Notified? ==>
              && Read(record, members, state).Ok? && Read(record, members, state).value.Some?
              && var rd := Read(record, members, state).value.value;
                 r.value.id == rd.id && r.value.title == rd.title && r.value.post.Post?
    ensures r.Ok? && r.value.Notified? ==>
              KindOf(accessor, record) == Ok(JStr(KindTask)) || KindOf(accessor, record) == Ok(JStr(KindConference))
  {
    var reading :- Read(record, members, state);
    match reading
    case None => Ok(Skipped)
    case Some(rd) =>
      var kind :- KindOf(accessor, record);
      Dispatch(rd, kind, userMap)
  }

  /** The loop of `main` over the remaining records. */
  function Loop(records: seq<Json>, members: MemberMap, state: State, userMap: DiscordClient.UserMap,
                accessor: KindAccessor): (r: Run<State>)
    decreases |records|
  {
    if |records| == 0 then Run([], Saved(state))
    else
      match Step(records[0], members, state, userMap, accessor)
      case Err(e) => Run([], Crashed(e))
      case Ok(Skipped) => Loop(records[1..], members, state, userMap, accessor)
      case Ok(Notified(id, title, post)) =>
        var rest := Loop(records[1..], members, SetDefault(state, id, title), userMap, accessor);
        Run([post] + rest.events, rest.end)
  }

  /** The records of a query response: `data.get("results", [])`. */
  function Records(data: Json): Result<seq<Json>>
  {
    var results :- GetOr(data, "results", JArr([]));
    Elements(results, AttributeError)
  }

  /**
   One run of `main`: the member map is built first, and an empty map ends
   the run before the query or any send.
   */
  function Main(memberResponse: Json, data: Json, state: State, userMap: DiscordClient.UserMap,
                accessor: KindAccessor): (r: Run<State>)
    ensures NotionClient.RetrieveMemberDict(memberResponse) == Ok(map[]) ==> r == Run([], Exited)
    ensures NotionClient.RetrieveMemberDict(memberResponse).Err? ==>
              r == Run([], Crashed(NotionClient.RetrieveMemberDict(memberResponse).error))
  {
    match NotionClient.RetrieveMemberDict(memberResponse)
    case Err(e) => Run([], Crashed(e))
    case Ok(members) =>
      if members == map[] then Run([], Exited)
      else
        match Records(data)
        case Err(e) => Run([], Crashed(e))
        case Ok(records) => Loop(records, members, state, userMap, accessor)
  }

  /** `main` as written, with the call to the undefined `get_select`. */
  function MainAsWritten(memberResponse: Json, data: Json, state: State, userMap: DiscordClient.UserMap)
    : (r: Run<State>)
    ensures r.events == []
    ensures r.end.Saved? ==> r.end.state == state
  {
    var r := Main(memberResponse, data, state, userMap, AsWritten);
    assert r.events == [] && (r.end.Saved? ==> r.end.state == state) by {
      if NotionClient.RetrieveMemberDict(memberResponse).Ok? && Records(data).Ok? {
        AsWrittenNeverSends(Records(data).value, NotionClient.RetrieveMemberDict(memberResponse).value, state, userMap);
      }
    }
    r
  }

  /** `main` with `get_select_value` at line 33. */
  function MainCorrected(memberResponse: Json, data: Json, state: State, userMap: DiscordClient.UserMap)
    : (r: Run<State>)
    ensures r.end.Saved? ==> forall k :: k in state ==> k in r.end.state && r.end.state[k] == state[k]
    ensures r.end.Saved? ==> |r.events| + |state.Keys| == |r.end.state.Keys|
    ensures r.end.Saved? ==> Records(data).Ok? && var records := Records(data).value;
              forall k :: k in r.end.state && k !in state ==>
                exists i :: 0 <= i < |records| && Carries(records[i], k, r.end.state[k])
  {
    var r := Main(memberResponse, data, state, userMap, Corrected);
    assert r.end.Saved? ==> (forall k :: k in state ==> k in r.end.state && r.end.state[k] == state[k])
                            && |r.events| + |state.Keys| == |r.end.state.Keys|
                            && Records(data).Ok?
                            && (forall k :: k in r.end.state && k !in state ==>
                                 exists i :: 0 <= i < |Records(data).value|
                                             && Carries(Records(data).value[i], k, r.end.state[k])) by {
      if r.end.Saved? {
        LoopGrows(Records(data).value, NotionClient.RetrieveMemberDict(memberResponse).value, state, userMap, Corrected);
      }
    }
    r
  }

  // ---------------------------------------------------------------------
  // Properties.

  /** With the undefined accessor no record is ever sent, and the state is saved untouched. */
  lemma {:induction false} AsWrittenNeverSends(records: seq<Json>, members: MemberMap, state: State,
                                               userMap: DiscordClient.UserMap)
    ensures Loop(records, members, state, userMap, AsWritten).events == []
    ensures Loop(records, members, state, userMap, AsWritten).end.Saved? ==>
              Loop(records, members, state, userMap, AsWritten).end.state == state
    decreases |records|
  {
    if |records| > 0 {
      AsWrittenNeverSends(records[1..], members, state, userMap);
    }
  }

  /** Every record the intended script would send crashes the script as written. */
  lemma AsWrittenCrashesWhereCorrectedSends(record: Json, members: MemberMap, state: State,
                                            userMap: DiscordClient.UserMap)
    requires Step(record, members, state, userMap, Corrected).Ok?
    requires Step(record, members, state, userMap, Corrected).value.Notified?
    ensures Step(record, members, state, userMap, AsWritten) == Err(AttributeError)
    ensures Loop([record], members, state, userMap, AsWritten) == Run([], Crashed(AttributeError))
  {
  }

  /** The record has id `id` and title `title`, read as `main` reads them. */
  predicate Carries(record: Json, id: Json, title: Json) {
    IdIs(record, id) && NotionClient.GetTitle(record) == Ok(title)
  }

  /** The deadline of the sample record: 2025-06-01T00:00:00, a Sunday. */
  function SampleDeadline(): Json {
    JStr(Dates.IsoFormat(Dates.DateTime(2025, 6, 1, 0, 0, 0)))
  }

  /** The properties of the sample record: title "T", the deadline, no assignees, kind タスク. */
  function SampleProperties(): map<string, Json> {
    map[
      PropTitle := JObj(map["title" := JArr([JObj(map["plain_text" := JStr("T")])])]),
      PropDeadline := JObj(map["date" := JObj(map["start" := SampleDeadline()])]),
      PropAssignee := JObj(map["relation" := JArr([])]),
      PropKind := JObj(map["select" := JObj(map["name" := JStr(KindTask)])])]
  }

  /** A タスク record the intended script sends. */
  function SampleTask(): Json {
    JObj(map["id" := JStr("a"), "properties" := JObj(SampleProperties())])
  }

  /** What the accessors read from the sample record. */
  lemma SampleReads()
    ensures NotionClient.GetTitle(SampleTask()) == Ok(JStr("T"))
    ensures NotionClient.GetDeadline(SampleTask()) == Ok(SampleDeadline())
    ensures NotionClient.GetRelationRecords(SampleTask(), PropAssignee) == Ok(JArr([]))
    ensures NotionClient.GetSelectValue(SampleTask(), PropKind) == Ok(JStr(KindTask))
  {
    SampleTitle();
    SampleDated();
  }

  /** The sample record's title is "T". */
  lemma SampleTitle()
    ensures NotionClient.GetTitle(SampleTask()) == Ok(JStr("T"))
  {
    var props := SampleProperties();
    assert PropTitle in props;
    var record := SampleTask();
    assert NotionClient.HasProperty(record, PropTitle, props[PropTitle]);
    NotionClient.GetTitleCases(record);
  }

  /** The sample record's deadline, empty relation and kind. */
  lemma SampleDated()
    ensures NotionClient.GetDeadline(SampleTask()) == Ok(SampleDeadline())
    ensures NotionClient.GetRelationRecords(SampleTask(), PropAssignee) == Ok(JArr([]))
    ensures NotionClient.GetSelectValue(SampleTask(), PropKind) == Ok(JStr(KindTask))
  {
    var props := SampleProperties();
    assert PropDeadline in props && PropAssignee in props && PropKind in props;
    var record := SampleTask();
    assert NotionClient.HasProperty(record, PropDeadline, props[PropDeadline]);
    assert NotionClient.HasProperty(record, PropAssignee, props[PropAssignee]);
    assert NotionClient.HasProperty(record, PropKind, props[PropKind]);
  }

  /** A fresh titled record with an empty 担当者 relation is read with no names. */
  lemma ReadWithoutAssignees(record: Json, members: MemberMap, state: State, id: Json, title: Json, deadline: Json)
    requires IdIs(record, id) && Truthy(id) && Hashable(id) && id !in state
    requires NotionClient.GetTitle(record) == Ok(title) && Truthy(title)
    requires NotionClient.GetDeadline(record) == Ok(deadline)
    requires NotionClient.GetRelationRecords(record, PropAssignee) == Ok(JArr([]))
    ensures Read(record, members, state) == Ok(Some(Reading(id, title, deadline, [])))
  {
  }

  /** A read record whose kind dispatches to an outcome steps to that outcome under the intended script. */
  lemma DispatchedStep(record: Json, members: MemberMap, state: State, userMap: DiscordClient.UserMap,
                       rd: Reading, kind: Json)
    requires Read(record, members, state) == Ok(Some(rd))
    requires KindOf(Corrected, record) == Ok(kind)
    ensures Step(record, members, state, userMap, Corrected) == Dispatch(rd, kind, userMap)
  {
    assert Read(record, members, state).Extract() == Some(rd);
    assert KindOf(Corrected, record).Extract() == kind;
  }

  /** A read record makes the script as written raise when it reads the kind. */
  lemma AsWrittenStep(record: Json, members: MemberMap, state: State, userMap: DiscordClient.UserMap, rd: Reading)
    requires Read(record, members, state) == Ok(Some(rd))
    ensures Step(record, members, state, userMap, AsWritten) == Err(AttributeError)
  {
  }

  /**
   The hypotheses of AsWrittenCrashesWhereCorrectedSends can be met: with a
   non-empty user map the intended script sends SampleTask, and the script
   as written raises on it.
   */
  lemma CorrectedSendsSampleTask(members: MemberMap, userMap: DiscordClient.UserMap)
    requires |userMap| > 0
    ensures Step(SampleTask(), members, map[], userMap, Corrected).Ok?
    ensures Step(SampleTask(), members, map[], userMap, Corrected).value.Notified?
    ensures Step(SampleTask(), members, map[], userMap, AsWritten) == Err(AttributeError)
  {
    var rd := Reading(JStr("a"), JStr("T"), SampleDeadline(), []);
    SampleRead(members);
    SampleSendable(userMap);
    SampleReads();
    DispatchedStep(SampleTask(), members, map[], userMap, rd, JStr(KindTask));
    AsWrittenStep(SampleTask(), members, map[], userMap, rd);
  }

  /** The sample record is read, with no names, from an empty state. */
  lemma SampleRead(members: MemberMap)
    ensures Read(SampleTask(), members, map[]) == Ok(Some(Reading(JStr("a"), JStr("T"), SampleDeadline(), [])))
  {
    SampleReads();
    var record := SampleTask();
    assert IdIs(record, JStr("a"));
    ReadWithoutAssignees(record, members, map[], JStr("a"), JStr("T"), SampleDeadline());
  }

  /** A task message for the sample record can be built with any non-empty user map. */
  lemma SampleSendable(userMap: DiscordClient.UserMap)
    requires |userMap| > 0
    ensures var d := Dispatch(Reading(JStr("a"), JStr("T"), SampleDeadline(), []), JStr(KindTask), userMap);
      d.Ok? && d.value.Notified?
  {
    var dt := Dates.DateTime(2025, 6, 1, 0, 0, 0);
    Dates.SundayDeadline();
    Dates.ConvertIsoFormat(dt);
    assert DiscordClient.Mentions([], userMap) == Ok([]);
    assert DiscordClient.SendTaskMessage(JStr("T"), JStr("a"), [], SampleDeadline(), userMap).Ok?;
  }

  /** A post made by one step records that record's id and title. */
  lemma StepCarries(record: Json, members: MemberMap, state: State, userMap: DiscordClient.UserMap,
                    accessor: KindAccessor)
    requires Step(record, members, state, userMap, accessor).Ok?
    requires Step(record, members, state, userMap, accessor).value.Notified?
    ensures var o := Step(record, members, state, userMap, accessor).value; Carries(record, o.id, o.title)
  {
  }

  /** A record of the tail that carries an entry is a record of the whole list. */
  lemma CarriedByTail(records: seq<Json>, k: Json, title: Json)
    requires |records| > 0
    requires exists j :: 0 <= j < |records[1..]| && Carries(records[1..][j], k, title)
    ensures exists i :: 0 <= i < |records| && Carries(records[i], k, title)
  {
    var j :| 0 <= j < |records[1..]| && Carries(records[1..][j], k, title);
    assert records[1..][j] == records[j + 1];
  }

  /**
   A saved run only adds entries: every earlier entry keeps its title, each
   post adds exactly one new id, and every new entry is some record's id
   holding that record's title.
   */
  lemma {:induction false} LoopGrows(records: seq<Json>, members: MemberMap, state: State,
                                     userMap: DiscordClient.UserMap, accessor: KindAccessor)
    requires Loop(records, members, state, userMap, accessor).end.Saved?
    ensures var saved := Loop(records, members, state, userMap, accessor).end.state;
      forall k :: k in state ==> k in saved && saved[k] == state[k]
    ensures var run := Loop(records, members, state, userMap, accessor);
      |run.events| + |state.Keys| == |run.end.state.Keys|
    ensures var saved := Loop(records, members, state, userMap, accessor).end.state;
      forall k :: k in saved && k !in state ==> exists i :: 0 <= i < |records| && Carries(records[i], k, saved[k])
    decreases |records|
  {
    if |records| > 0 {
      var saved := Loop(records, members, state, userMap, accessor).end.state;
      match Step(records[0], members, state, userMap, accessor)
      case Ok(Skipped) =>
        LoopGrows(records[1..], members, state, userMap, accessor);
        forall k | k in saved && k !in state ensures exists i :: 0 <= i < |records| && Carries(records[i], k, saved[k]) {
          CarriedByTail(records, k, saved[k]);
        }
      case Ok(Notified(id, title, post)) =>
        var next := SetDefault(state, id, title);
        LoopGrows(records[1..], members, next, userMap, accessor);
        assert next.Keys == state.Keys + {id} && id !in state.Keys;
        assert |next.Keys| == |state.Keys| + 1;
        StepCarries(records[0], members, state, userMap, accessor);
        assert saved == Loop(records[1..], members, next, userMap, accessor).end.state;
        assert saved[id] == next[id] == title;
        forall k | k in saved && k !in state ensures exists i :: 0 <= i < |records| && Carries(records[i], k, saved[k]) {
          if k == id {
            assert Carries(records[0], k, saved[k]);
          } else {
            assert k !in next;
            CarriedByTail(records, k, saved[k]);
          }
        }
    }
  }

  /** Each event of a run is a post; a run of this script never patches a page. */
  lemma {:induction false} LoopOnlyPosts(records: seq<Json>, members: MemberMap, state: State,
                                         userMap: DiscordClient.UserMap, accessor: KindAccessor)
    ensures var events := Loop(records, members, state, userMap, accessor).events;
      PostCount(events) == |events|
    decreases |records|
  {
    if |records| > 0 {
      match Step(records[0], members, state, userMap, accessor)
      case Err(_) =>
      case Ok(Skipped) =>
        LoopOnlyPosts(records[1..], members, state, userMap, accessor);
      case Ok(Notified(id, title, post)) =>
        var rest := Loop(records[1..], members, SetDefault(state, id, title), userMap, accessor);
        LoopOnlyPosts(records[1..], members, SetDefault(state, id, title), userMap, accessor);
        PostCountAppend([post], rest.events);
        assert PostCount([post]) == 1 by {
          assert [post][1..] == [];
        }
    }
  }

  /** Growing the state can only turn a send into a skip, never the reverse. */
  lemma StepSkipsInLargerState(record: Json, members: MemberMap, small: State, large: State,
                               userMap: DiscordClient.UserMap, accessor: KindAccessor)
    requires Step(record, members, small, userMap, accessor) == Ok(Skipped)
    requires small.Keys <= large.Keys
    ensures Step(record, members, large, userMap, accessor) == Ok(Skipped)
  {
  }

  /** A sent record's id is in every state that contains it. */
  lemma StepSkipsNotified(record: Json, members: MemberMap, state: State, large: State,
                          userMap: DiscordClient.UserMap, accessor: KindAccessor)
    requires Step(record, members, state, userMap, accessor).Ok?
    requires Step(record, members, state, userMap, accessor).value.Notified?
    requires Step(record, members, state, userMap, accessor).value.id in large
    ensures Step(record, members, large, userMap, accessor) == Ok(Skipped)
  {
  }

  /**
   Re-running over the same records from any state that contains the
   saved one's keys sends nothing: every record is skipped again.
   */
  lemma {:induction false} LoopIdempotent(records: seq<Json>, members: MemberMap, state: State,
                                          userMap: DiscordClient.UserMap, accessor: KindAccessor, saved: State)
    requires Loop(records, members, state, userMap, accessor).end.Saved?
    requires Loop(records, members, state, userMap, accessor).end.state.Keys <= saved.Keys
    ensures Loop(records, members, saved, userMap, accessor) == Run([], Saved(saved))
    decreases |records|
  {
    if |records| > 0 {
      var run := Loop(records, members, state, userMap, accessor);
      match Step(records[0], members, state, userMap, accessor)
      case Ok(Skipped) =>
        LoopGrows(records[1..], members, state, userMap, accessor);
        StepSkipsInLargerState(records[0], members, state, saved, userMap, accessor);
        LoopIdempotent(records[1..], members, state, userMap, accessor, saved);
      case Ok(Notified(id, title, post)) =>
        var next := SetDefault(state, id, title);
        LoopGrows(records[1..], members, next, userMap, accessor);
        StepSkipsNotified(records[0], members, state, saved, userMap, accessor);
        LoopIdempotent(records[1..], members, next, userMap, accessor, saved);
    }
  }

  /**
   Idempotence of `main`: a second run over the same responses, starting
   from the state the first run saved, as held in memory, sends nothing and
   saves that state again.
   */
  lemma MainIdempotent(memberResponse: Json, data: Json, state: State, userMap: DiscordClient.UserMap,
                       accessor: KindAccessor, saved: State)
    requires Main(memberResponse, data, state, userMap, accessor).end == Saved(saved)
    ensures Main(memberResponse, data, saved, userMap, accessor) == Run([], Saved(saved))
  {
    var members := NotionClient.RetrieveMemberDict(memberResponse).value;
    LoopIdempotent(Records(data).value, members, state, userMap, accessor, saved);
  }

  /**
   Idempotence across the state file: the second run starts from what
   `json.load` returns for the saved file. When the saved ids are strings,
   as Notion's page ids are, the round trip changes nothing.
   */
  lemma MainIdempotentReloaded(memberResponse: Json, data: Json, state: State, userMap: DiscordClient.UserMap,
                               accessor: KindAccessor, saved: State)
    requires Main(memberResponse, data, state, userMap, accessor).end == Saved(saved)
    requires forall k :: k in saved ==> k.JStr?
    ensures DumpsDistinctly(saved)
    ensures Main(memberResponse, data, Reloaded(saved), userMap, accessor) == Run([], Saved(saved))
  {
    ReloadedStringKeys(saved);
    MainIdempotent(memberResponse, data, state, userMap, accessor, saved);
  }

  /**
   Without string ids the round trip loses the skip: a record with the
   integer id 5 is skipped from the in-memory state, but once the state
   comes back from its file the key is the string "5" and the record is
   read again.
   */
  lemma IntIdReadAgainAfterReload(members: MemberMap, title: Json)
    ensures var record := JObj(map["id" := JInt(5)]);
      var saved := map[JInt(5) := title];
      && DumpsDistinctly(saved)
      && Read(record, members, saved) == Ok(None)
      && Read(record, members, Reloaded(saved)) != Ok(None)
  {
    var record := JObj(map["id" := JInt(5)]);
    var saved := map[JInt(5) := title];
    ReloadedIntKey(5, title);
    assert JInt(5) !in Reloaded(saved);
    assert IdIs(record, JInt(5));
    assert NotionClient.GetTitle(record) == Err(KeyError);
  }
}
