/**
 The status-diff reconciler of `notion_monitor.py`. Every run reads all
 fetched pages, rebuilds the state page id -> status id from scratch, and
 notifies a page when its status changed (or it is new, or forced) and it
 is in progress and not suppressed (or forced); each notification is
 followed by a patch that clears the page's force flag. The fetched query
 response, the previous state and the user map are parameters; the posts
 and patches are the run's events.
 */
module StatusDiff {
  import opened PyJson
  import opened Text
  import opened Config
  import opened Effects
  import NotionClient
  import PropertyFormat
  import DiscordClient

  /** Page id -> status id (`None` for a page without a status). */
  type State = map<Json, Json>

  /** What the loop body reads from one titled page. */
  datatype PageView = PageView(
    id: Json,
    title: Json,
    statusId: Json,
    assignees: seq<Json>,
    checkers: seq<Json>,
    suppress: Json,
    force: Json)

  /** `[sel["name"] for sel in selections]`. */
  function SelectNames(selections: seq<Json>): (r: Result<seq<Json>>)
    ensures r.Ok? <==> forall i :: 0 <= i < |selections| ==> Subscript(selections[i], "name").Ok?
    ensures r.Ok? ==> |r.value| == |selections|
    ensures r.Ok? ==> forall i :: 0 <= i < |selections| ==> r.value[i] == selections[i].fields["name"]
  {
    if |selections| == 0 then Ok([])
    else
      var name :- Subscript(selections[0], "name");
      var rest :- SelectNames(selections[1..]);
      assert forall i :: 1 <= i < |selections| ==> selections[i] == selections[1..][i - 1];
      Ok([name] + rest)
  }

  /** The names of a `multi_select` property; no names unless the property is truthy and typed `multi_select`. */
  function MultiSelectNames(prop: Json): (r: Result<seq<Json>>)
    ensures !Truthy(prop) ==> r == Ok([])
    ensures Truthy(prop) && !prop.JObj? ==> r == Err(AttributeError)
    ensures prop.JObj? && !("type" in prop.fields && prop.fields["type"] == JStr("multi_select")) ==> r == Ok([])
    ensures (prop.JObj? && "type" in prop.fields && prop.fields["type"] == JStr("multi_select")
             && "multi_select" !in prop.fields) ==> r == Err(KeyError)
    ensures (prop.JObj? && "type" in prop.fields && prop.fields["type"] == JStr("multi_select")
             && "multi_select" in prop.fields && prop.fields["multi_select"].JArr?)
            ==> r == SelectNames(prop.fields["multi_select"].items)
  {
    if !Truthy(prop) then Ok([])
    else
      var kind :- GetOr(prop, "type", JNull);
      if kind != JStr("multi_select") then Ok([])
      else
        var selections :- Subscript(prop, "multi_select");
        var items :- Elements(selections, TypeError);
        SelectNames(items)
  }

  /**
   The loop body of `main` up to the state update, for one fetched page:
   None for a page without a title, which is skipped. A missing status
   property raises TypeError (`None["status"]`), and so does a list or dict
   page id when it becomes a state key.
   */
  function ReadPage(page: Json): Result<Option<PageView>>
  {
    var id :- Subscript(page, "id");
    var props :- Subscript(page, "properties");
    if !props.JObj? then Err(AttributeError)
    else
      var t :- NotionClient.TitleLookup(page);
      match t
      case None => Ok(None)
      case Some(title) =>
        var fields := props.fields;
        var statusProp := if PropStatus in fields then fields[PropStatus] else JNull;
        var status :- Subscript(statusProp, "status");
        var statusId :- if Truthy(status) then Subscript(status, "id") else Ok(JNull);
        var assignees :- MultiSelectNames(if PropAssignee in fields then fields[PropAssignee] else JNull);
        var checkers :- MultiSelectNames(if PropChecker in fields then fields[PropChecker] else JNull);
        var suppress :- NotionClient.GetCheckboxValue(page, PropSuppressNotify);
        var force :- NotionClient.GetCheckboxValue(page, PropForceNotify);
        if !Hashable(id) then Err(TypeError)
        else Ok(Some(PageView(id, title, statusId, assignees, checkers, suppress, force)))
  }

  /** What `ReadPage` reads from the page, and when it skips or raises. */
  lemma ReadPageCases(page: Json)
    ensures var r := ReadPage(page);
      r == Ok(None) <==> Subscript(page, "id").Ok? && NotionClient.TitleLookup(page) == Ok(None)
    ensures var r := ReadPage(page);
      r.Ok? && r.value.Some? ==> var v := r.value.value;
      && page.JObj? && "id" in page.fields && v.id == page.fields["id"] && Hashable(v.id)
      && NotionClient.TitleLookup(page) == Ok(Some(v.title))
      && NotionClient.GetCheckboxValue(page, PropSuppressNotify) == Ok(v.suppress)
      && NotionClient.GetCheckboxValue(page, PropForceNotify) == Ok(v.force)
    ensures (NotionClient.TitleLookup(page).Ok? && NotionClient.TitleLookup(page).value.Some?
             && LacksStatus(page)) ==> ReadPage(page).Err?
    ensures var r := ReadPage(page);
      forall status :: (r.Ok? && r.value.Some? && HasStatus(page, status) && status.JObj? && "id" in status.fields)
                       ==> r.value.value.statusId == status.fields["id"]
    ensures var r := ReadPage(page);
      forall status :: r.Ok? && r.value.Some? && HasStatus(page, status) && !Truthy(status) ==> r.value.value.statusId == JNull
    ensures forall status :: (page.JObj? && "id" in page.fields && NotionClient.TitleLookup(page).Ok?
                              && NotionClient.TitleLookup(page).value.Some? && HasStatus(page, status)
                              && status.JObj? && status.fields != map[] && "id" !in status.fields)
                             ==> ReadPage(page) == Err(KeyError)
  {
  }

  /** The page's ステータス property is a dict whose `status` entry is `status`. */
  predicate HasStatus(page: Json, status: Json) {
    && page.JObj? && "properties" in page.fields
    && page.fields["properties"].JObj?
    && PropStatus in page.fields["properties"].fields
    && var p := page.fields["properties"].fields[PropStatus];
    && p.JObj? && "status" in p.fields && p.fields["status"] == status
  }

  predicate LacksStatus(page: Json) {
    NotionClient.LacksProperty(page, PropStatus)
  }

  predicate Changed(prev: State, v: PageView) {
    v.id !in prev || prev[v.id] != v.statusId
  }

  predicate InProgress(v: PageView) {
    v.statusId == JStr(StatusIdInProgress)
  }

  /**
   The two tests of the diff: changed or forced, and then (not suppressed
   and in progress) or forced. `and` binds tighter than `or`, so force
   overrides both the suppress flag and the status.
   */
  function ShouldNotify(prev: State, v: PageView): (r: bool)
    ensures Truthy(v.force) ==> r
    ensures !Truthy(v.force) ==> (r <==> Changed(prev, v) && !Truthy(v.suppress) && InProgress(v))
  {
    (Changed(prev, v) || Truthy(v.force)) && ((!Truthy(v.suppress) && InProgress(v)) || Truthy(v.force))
  }

  /** The names with no Discord id, in input order. */
  function Unmapped(names: seq<Json>, userMap: DiscordClient.UserMap): (r: seq<Json>)
    ensures forall n :: n in r <==> n in names && !DiscordClient.Resolves(userMap, n)
    ensures |names| == 1 ==> r == (if DiscordClient.Resolves(userMap, names[0]) then [] else names)
  {
    if |names| == 0 then []
    else
      var rest := Unmapped(names[1..], userMap);
      assert forall n :: n in names <==> n == names[0] || n in names[1..];
      if DiscordClient.Resolves(userMap, names[0]) then rest else [names[0]] + rest
  }

  /** The unmapped names of two lists are those of the first followed by those of the second. */
  lemma {:induction false} UnmappedAppend(a: seq<Json>, b: seq<Json>, userMap: DiscordClient.UserMap)
    ensures Unmapped(a + b, userMap) == Unmapped(a, userMap) + Unmapped(b, userMap)
  {
    if |a| > 0 {
      assert (a + b)[0] == a[0];
      assert (a + b)[1..] == a[1..] + b;
      UnmappedAppend(a[1..], b, userMap);
    } else {
      assert a + b == b;
    }
  }

  /** Every name is either mapped or unmapped, never both. */
  lemma {:induction false} MappedUnmappedCount(names: seq<Json>, userMap: DiscordClient.UserMap)
    ensures |DiscordClient.MappedNames(names, userMap)| + |Unmapped(names, userMap)| == |names|
  {
    if |names| > 0 {
      MappedUnmappedCount(names[1..], userMap);
    }
  }

  /**
   The two loops of `send_discord_notification` for one role: a mention for
   each name with a Discord id (the same rule as the other script's message
   builder) and the remaining names as unknowns, both in input order.
   */
  function Partition(names: seq<Json>, userMap: DiscordClient.UserMap): (r: Result<(seq<string>, seq<Json>)>)
    ensures r.Ok? <==> forall i :: 0 <= i < |names| ==> Hashable(names[i])
    ensures r.Err? ==> r.error == TypeError
    ensures r.Ok? ==> r.value.0 == DiscordClient.Mentions(names, userMap).value
    ensures r.Ok? ==> r.value.1 == Unmapped(names, userMap)
    ensures r.Ok? ==> |r.value.0| + |r.value.1| == |names|
  {
    if |names| == 0 then Ok(([], []))
    else if !Hashable(names[0]) then Err(TypeError)
    else
      var rest :- Partition(names[1..], userMap);
      MappedUnmappedCount(names, userMap);
      if DiscordClient.Resolves(userMap, names[0])
      then Ok(([DiscordClient.Mention(userMap[names[0].s])] + rest.0, rest.1))
      else Ok((rest.0, [names[0]] + rest.1))
  }

  /** The unknown-name note for one role: present exactly when some name has no Discord id. */
  function UnknownNote(role: string, unknowns: seq<string>): (r: string)
    ensures |r| > 0 <==> |unknowns| > 0
    ensures |unknowns| > 0 ==> Contains(r, Join(", ", unknowns))
  {
    if |unknowns| == 0 then ""
    else
      var prefix := "\n-# " + role + "のDiscordIDが未登録です: ";
      var r := prefix + Join(", ", unknowns);
      assert Occurs(r, Join(", ", unknowns), |prefix|);
      r
  }

  /** The message layout of `send_discord_notification`. */
  function Layout(title: string, assigneeLine: string, checkerLine: string, pageUrl: string,
                  assigneeNote: string, checkerNote: string): string
  {
    ("# " + title + "\n担当者:" + assigneeLine + "\n確認者:" + checkerLine + "\nリンク: ")
    + pageUrl + ("\n" + assigneeNote + "\n" + checkerNote)
  }

  /** The layout carries the page URL and both unknown notes verbatim. */
  lemma LayoutContains(title: string, assigneeLine: string, checkerLine: string, pageUrl: string,
                       assigneeNote: string, checkerNote: string)
    ensures var m := Layout(title, assigneeLine, checkerLine, pageUrl, assigneeNote, checkerNote);
      Contains(m, pageUrl) && Contains(m, assigneeNote) && Contains(m, checkerNote)
  {
    var a := "# " + title + "\n担当者:" + assigneeLine + "\n確認者:" + checkerLine + "\nリンク: ";
    var c := "\n" + assigneeNote + "\n" + checkerNote;
    var m := a + pageUrl + c;
    ThreeParts(a, pageUrl, c);
    assert Occurs(m, pageUrl, |a|);
    ThreeParts("\n", assigneeNote, "\n" + checkerNote);
    assert c == "\n" + assigneeNote + ("\n" + checkerNote);
    assert m[|a| + |pageUrl|..] == c;
    assert Occurs(m, assigneeNote, |a| + |pageUrl| + 1) by {
      assert m[|a| + |pageUrl| + 1..|a| + |pageUrl| + 1 + |assigneeNote|] == c[1..1 + |assigneeNote|];
    }
    assert Occurs(m, checkerNote, |m| - |checkerNote|) by {
      assert m[|m| - |checkerNote|..] == c[|c| - |checkerNote|..];
    }
  }

  /** The layout carries each role's line: the label, then that role's mentions and unknowns. */
  lemma LayoutLines(title: string, assigneeLine: string, checkerLine: string, pageUrl: string,
                    assigneeNote: string, checkerNote: string)
    ensures var m := Layout(title, assigneeLine, checkerLine, pageUrl, assigneeNote, checkerNote);
      Contains(m, "\n担当者:" + assigneeLine) && Contains(m, "\n確認者:" + checkerLine)
  {
    var m := Layout(title, assigneeLine, checkerLine, pageUrl, assigneeNote, checkerNote);
    var p, x := "# " + title, "\n担当者:" + assigneeLine;
    var y := "\n確認者:" + checkerLine;
    var rest := "\nリンク: " + pageUrl + ("\n" + assigneeNote + "\n" + checkerNote);
    assert m == p + x + (y + rest);
    OccursMiddle(p, x, y + rest);
    assert m == (p + x) + y + rest;
    OccursMiddle(p + x, y, rest);
  }

  /**
   The message content of `send_discord_notification`: the page URL first,
   then the two partitions; `str.join` over the unknowns demands strings.
   The content carries the URL and, per role, the unknown note, which is
   non-empty exactly when that role has a name without a Discord id.
   */
  function NotificationContent(v: PageView, userMap: DiscordClient.UserMap): (r: Result<string>)
    ensures r.Ok? ==> v.id.JStr? && Hashable(v.title)
    ensures r.Ok? ==> Contains(r.value, NotionClient.BuildNotionUrl(v.id).value)
    ensures r.Ok? ==> AsStrings(Unmapped(v.assignees, userMap)).Ok? && AsStrings(Unmapped(v.checkers, userMap)).Ok?
    ensures r.Ok? ==> Contains(r.value, UnknownNote("担当者", AsStrings(Unmapped(v.assignees, userMap)).value))
    ensures r.Ok? ==> Contains(r.value, UnknownNote("確認者", AsStrings(Unmapped(v.checkers, userMap)).value))
  {
    var pageUrl :- NotionClient.BuildNotionUrl(v.id);
    var assignees :- Partition(v.assignees, userMap);
    var checkers :- Partition(v.checkers, userMap);
    var assigneeUnknowns :- AsStrings(assignees.1);
    var checkerUnknowns :- AsStrings(checkers.1);
    var title :- PyStr(v.title);
    var assigneeNote := UnknownNote("担当者", assigneeUnknowns);
    var checkerNote := UnknownNote("確認者", checkerUnknowns);
    var assigneeLine := Join(" ", assignees.0) + Join(" ", assigneeUnknowns);
    var checkerLine := Join(" ", checkers.0) + Join(" ", checkerUnknowns);
    LayoutContains(title, assigneeLine, checkerLine, pageUrl, assigneeNote, checkerNote);
    Ok(Layout(title, assigneeLine, checkerLine, pageUrl, assigneeNote, checkerNote))
  }

  /**
   When the content is built and which error stops it, and the line each
   role gets: its label, its mentions joined by spaces, then its unknown
   names joined by spaces with no separator in between.
   */
  lemma NotificationContentCases(v: PageView, userMap: DiscordClient.UserMap)
    ensures NotificationContent(v, userMap).Ok? <==>
              && v.id.JStr? && Hashable(v.title)
              && Partition(v.assignees, userMap).Ok? && Partition(v.checkers, userMap).Ok?
              && AsStrings(Unmapped(v.assignees, userMap)).Ok? && AsStrings(Unmapped(v.checkers, userMap)).Ok?
    ensures !v.id.JStr? ==> NotificationContent(v, userMap) == Err(AttributeError)
    ensures (&& v.id.JStr? && Partition(v.assignees, userMap).Ok? && Partition(v.checkers, userMap).Ok?
             && !AsStrings(Unmapped(v.assignees, userMap)).Ok?) ==> NotificationContent(v, userMap) == Err(TypeError)
    ensures (&& v.id.JStr? && Partition(v.assignees, userMap).Ok? && Partition(v.checkers, userMap).Ok?
             && !AsStrings(Unmapped(v.checkers, userMap)).Ok?) ==> NotificationContent(v, userMap) == Err(TypeError)
    ensures var r := NotificationContent(v, userMap);
      r.Ok? ==> Contains(r.value, "\n担当者:" + Join(" ", DiscordClient.Mentions(v.assignees, userMap).value)
                                  + Join(" ", AsStrings(Unmapped(v.assignees, userMap)).value))
    ensures var r := NotificationContent(v, userMap);
      r.Ok? ==> Contains(r.value, "\n確認者:" + Join(" ", DiscordClient.Mentions(v.checkers, userMap).value)
                                  + Join(" ", AsStrings(Unmapped(v.checkers, userMap)).value))
  {
    var r := NotificationContent(v, userMap);
    if r.Ok? {
      var pageUrl := NotionClient.BuildNotionUrl(v.id).value;
      var assignees := Partition(v.assignees, userMap).value;
      var checkers := Partition(v.checkers, userMap).value;
      var assigneeUnknowns := AsStrings(assignees.1).value;
      var checkerUnknowns := AsStrings(checkers.1).value;
      var title := PyStr(v.title).value;
      var assigneeNote := UnknownNote("担当者", assigneeUnknowns);
      var checkerNote := UnknownNote("確認者", checkerUnknowns);
      var assigneeLine := Join(" ", assignees.0) + Join(" ", assigneeUnknowns);
      var checkerLine := Join(" ", checkers.0) + Join(" ", checkerUnknowns);
      assert r.value == Layout(title, assigneeLine, checkerLine, pageUrl, assigneeNote, checkerNote);
      LayoutLines(title, assigneeLine, checkerLine, pageUrl, assigneeNote, checkerNote);
      assert "\n担当者:" + assigneeLine == "\n担当者:" + Join(" ", assignees.0) + Join(" ", assigneeUnknowns);
      assert "\n確認者:" + checkerLine == "\n確認者:" + Join(" ", checkers.0) + Join(" ", checkerUnknowns);
    }
  }

  /** The body of the patch that clears the force flag. */
  const ResetForce: Json := NotionClient.UpdatePageCheckbox(PropForceNotify, false)

  /** `update_page_property(page_id, 強制通知, False)` sends the force-reset body. */
  lemma ResetForceBody()
    ensures PropertyFormat.UpdatePageProperty(PropForceNotify, JBool(false)) == Ok(ResetForce)
  {
    PropertyFormat.CheckboxBodiesAgree(PropForceNotify, false);
  }

  /** A notification: the silent webhook post, then the patch clearing the page's 強制通知 flag. */
  function NotifyEvents(v: PageView, userMap: DiscordClient.UserMap): (r: Result<seq<Event>>)
    ensures r.Ok? <==> NotificationContent(v, userMap).Ok?
    ensures r.Ok? ==> |r.value| == 2 && r.value[0].Post? && r.value[1] == Patch(v.id, ResetForce)
    ensures r.Ok? ==> r.value[0] == NotificationPost(NotificationContent(v, userMap).value)
  {
    match NotificationContent(v, userMap)
    case Err(e) => Err(e)
    case Ok(content) =>
      ResetForceBody();
      Ok([NotificationPost(content), Patch(v.id, PropertyFormat.UpdatePageProperty(PropForceNotify, JBool(false)).value)])
  }

  /** The webhook post of `send_discord_notification`: the content as built, sent silently. */
  function NotificationPost(content: string): (r: Event)
    ensures r.Post? && r.payload.JObj? && r.payload.fields.Keys == {"content", "flags"}
    ensures r.payload.fields["content"] == JStr(content) && r.payload.fields["flags"] == JInt(4096)
  {
    Post(JObj(map["content" := JStr(content), "flags" := JInt(4096)]))
  }

  /** The loop of `main` over the remaining pages, with the new state built so far. */
  function Loop(pages: seq<Json>, prev: State, acc: State, userMap: DiscordClient.UserMap): (r: Run<State>)
    decreases |pages|
  {
    if |pages| == 0 then Run([], Saved(acc))
    else
      match ReadPage(pages[0])
      case Err(e) => Run([], Crashed(e))
      case Ok(None) => Loop(pages[1..], prev, acc, userMap)
      case Ok(Some(v)) =>
        var next := acc[v.id := v.statusId];
        if !ShouldNotify(prev, v) then Loop(pages[1..], prev, next, userMap)
        else
          match NotifyEvents(v, userMap)
          case Err(e) => Run([], Crashed(e))
          case Ok(events) =>
            var rest := Loop(pages[1..], prev, next, userMap);
            Run(events + rest.events, rest.end)
  }

  /** The pages of a query response: `data.get("results", [])`. */
  function Pages(data: Json): Result<seq<Json>>
  {
    var results :- GetOr(data, "results", JArr([]));
    Elements(results, TypeError)
  }

  /** One run of `main` on a fetched response, starting from an empty new state. */
  function Monitor(data: Json, prev: State, userMap: DiscordClient.UserMap): (r: Run<State>)
    ensures !data.JObj? ==> r == Run([], Crashed(AttributeError))
  {
    match Pages(data)
    case Err(e) => Run([], Crashed(e))
    case Ok(pages) => Loop(pages, prev, map[], userMap)
  }

  // ---------------------------------------------------------------------
  // Reference definitions: what the loop reads, and what it should decide.

  /** The views of the titled pages, in order; the first unreadable page fails. */
  function Views(pages: seq<Json>): Result<seq<PageView>>
  {
    if |pages| == 0 then Ok([])
    else
      var v :- ReadPage(pages[0]);
      var rest :- Views(pages[1..]);
      Ok(if v.Some? then [v.value] + rest else rest)
  }

  /** The state after recording every view, later pages overwriting earlier ones. */
  function StateOf(views: seq<PageView>, acc: State): State
  {
    if |views| == 0 then acc else StateOf(views[1..], acc[views[0].id := views[0].statusId])
  }

  /** Ids of the views that pass the diff against `prev`, in order. */
  function Notified(views: seq<PageView>, prev: State): seq<Json>
  {
    if |views| == 0 then []
    else (if ShouldNotify(prev, views[0]) then [views[0].id] else []) + Notified(views[1..], prev)
  }

  /** Ids of the pages patched, in order. */
  function PatchedIds(events: seq<Event>): seq<Json>
  {
    if |events| == 0 then []
    else (if events[0].Patch? then [events[0].pageId] else []) + PatchedIds(events[1..])
  }

  lemma {:induction false} PatchedIdsAppend(a: seq<Event>, b: seq<Event>)
    ensures PatchedIds(a + b) == PatchedIds(a) + PatchedIds(b)
    decreases |a|
  {
    if |a| == 0 {
      assert a + b == b;
    } else {
      var rest := a[1..];
      var head := if a[0].Patch? then [a[0].pageId] else [];
      assert (a + b)[0] == a[0];
      assert (a + b)[1..] == rest + b;
      PatchedIdsAppend(rest, b);
      assert PatchedIds(a + b) == head + PatchedIds(rest + b);
      assert PatchedIds(a) == head + PatchedIds(rest);
    }
  }

  predicate DistinctIds(views: seq<PageView>) {
    forall i, j :: 0 <= i < j < |views| ==> views[i].id != views[j].id
  }

  // ---------------------------------------------------------------------
  // Properties of a run.

  /** A run that saves its state read every page, and saves exactly the state recorded from the views. */
  lemma {:induction false} LoopState(pages: seq<Json>, prev: State, acc: State, userMap: DiscordClient.UserMap)
    requires Loop(pages, prev, acc, userMap).end.Saved?
    ensures Views(pages).Ok?
    ensures Loop(pages, prev, acc, userMap).end.state == StateOf(Views(pages).value, acc)
    decreases |pages|
  {
    if |pages| > 0 {
      match ReadPage(pages[0])
      case Ok(None) =>
        LoopState(pages[1..], prev, acc, userMap);
      case Ok(Some(v)) =>
        LoopState(pages[1..], prev, acc[v.id := v.statusId], userMap);
    }
  }

  /** The recorded state holds the earlier entries plus every view's id. */
  lemma {:induction false} StateOfKeys(views: seq<PageView>, acc: State)
    ensures StateOf(views, acc).Keys == acc.Keys + (set i | 0 <= i < |views| :: views[i].id)
    decreases |views|
  {
    if |views| > 0 {
      var next := acc[views[0].id := views[0].statusId];
      StateOfKeys(views[1..], next);
      assert (set i | 0 <= i < |views| :: views[i].id)
          == {views[0].id} + (set i | 0 <= i < |views[1..]| :: views[1..][i].id) by {
        forall i | 0 <= i < |views|
          ensures views[i].id in {views[0].id} + (set j | 0 <= j < |views[1..]| :: views[1..][j].id)
        {
          if i > 0 {
            assert views[1..][i - 1].id == views[i].id;
          }
        }
      }
    }
  }

  /** With distinct ids, each view's id maps to that view's status id. */
  lemma {:induction false} StateOfValues(views: seq<PageView>, acc: State, k: nat)
    requires DistinctIds(views) && k < |views|
    ensures views[k].id in StateOf(views, acc)
    ensures StateOf(views, acc)[views[k].id] == views[k].statusId
    decreases |views|
  {
    var next := acc[views[0].id := views[0].statusId];
    if k == 0 {
      StateOfKeep(views[1..], next, views[0].id);
    } else {
      StateOfValues(views[1..], next, k - 1);
    }
  }

  /** An id no later view carries keeps its recorded value. */
  lemma {:induction false} StateOfKeep(views: seq<PageView>, acc: State, id: Json)
    requires id in acc
    requires forall i :: 0 <= i < |views| ==> views[i].id != id
    ensures id in StateOf(views, acc) && StateOf(views, acc)[id] == acc[id]
    decreases |views|
  {
    if |views| > 0 {
      StateOfKeep(views[1..], acc[views[0].id := views[0].statusId], id);
    }
  }

  /**
   The new state is rebuilt from this fetch alone: its keys are exactly the
   titled pages' ids (ids only in the previous state are dropped), and with
   distinct ids each maps to its page's current status id.
   */
  lemma MonitorState(data: Json, prev: State, userMap: DiscordClient.UserMap)
    requires Monitor(data, prev, userMap).end.Saved?
    ensures Pages(data).Ok? && Views(Pages(data).value).Ok?
    ensures var views := Views(Pages(data).value).value;
            var state := Monitor(data, prev, userMap).end.state;
            && state.Keys == (set i | 0 <= i < |views| :: views[i].id)
            && (DistinctIds(views) ==> forall i :: 0 <= i < |views| ==> state[views[i].id] == views[i].statusId)
  {
    var pages := Pages(data).value;
    LoopState(pages, prev, map[], userMap);
    var views := Views(pages).value;
    StateOfKeys(views, map[]);
    if DistinctIds(views) {
      forall i | 0 <= i < |views| ensures StateOf(views, map[])[views[i].id] == views[i].statusId {
        StateOfValues(views, map[], i);
      }
    }
  }

  /** A saved run patches exactly the pages that pass the diff, in page order. */
  lemma {:induction false} LoopNotified(pages: seq<Json>, prev: State, acc: State, userMap: DiscordClient.UserMap)
    requires Loop(pages, prev, acc, userMap).end.Saved?
    ensures Views(pages).Ok?
    ensures PatchedIds(Loop(pages, prev, acc, userMap).events) == Notified(Views(pages).value, prev)
    decreases |pages|
  {
    if |pages| > 0 {
      match ReadPage(pages[0])
      case Ok(None) =>
        LoopNotified(pages[1..], prev, acc, userMap);
      case Ok(Some(v)) =>
        var next := acc[v.id := v.statusId];
        var tail := Loop(pages[1..], prev, next, userMap);
        LoopNotified(pages[1..], prev, next, userMap);
        var views := Views(pages).value;
        assert views == [v] + Views(pages[1..]).value;
        assert views[1..] == Views(pages[1..]).value;
        if ShouldNotify(prev, v) {
          var events := NotifyEvents(v, userMap).value;
          assert Loop(pages, prev, acc, userMap) == Run(events + tail.events, tail.end);
          assert Notified(views, prev) == [v.id] + Notified(views[1..], prev);
          PatchedIdsAppend(events, tail.events);
          PatchedIdsOfPair(events);
        } else {
          assert Loop(pages, prev, acc, userMap) == tail;
          assert Notified(views, prev) == Notified(views[1..], prev);
        }
    }
  }

  /** A notification's two events patch exactly its page. */
  lemma PatchedIdsOfPair(events: seq<Event>)
    requires |events| == 2 && events[0].Post? && events[1].Patch?
    ensures PatchedIds(events) == [events[1].pageId]
  {
    var rest := events[1..];
    assert rest[1..] == [];
    assert PatchedIds(rest[1..]) == [];
    assert PatchedIds(rest) == [events[1].pageId];
  }

  /** The events come in pairs: a post, then a patch clearing the force flag. */
  predicate Alternating(events: seq<Event>)
    decreases |events|
  {
    || |events| == 0
    || (&& |events| >= 2 && events[0].Post? && events[1].Patch? && events[1].body == ResetForce
        && Alternating(events[2..]))
  }

  lemma AlternatingCons(head: seq<Event>, tail: seq<Event>)
    requires |head| == 2 && head[0].Post? && head[1].Patch? && head[1].body == ResetForce
    requires Alternating(tail)
    ensures Alternating(head + tail)
  {
    assert (head + tail)[2..] == tail;
  }

  /** In an alternating sequence a post is never last and is followed by a reset patch. */
  lemma {:induction false} AlternatingPost(events: seq<Event>, k: nat)
    requires Alternating(events) && k < |events| && events[k].Post?
    ensures k + 1 < |events| && events[k + 1].Patch? && events[k + 1].body == ResetForce
    decreases k
  {
    if k >= 2 {
      AlternatingPost(events[2..], k - 2);
    }
  }

  /** In every run, crashed or not, the events alternate post, force-reset patch. */
  lemma {:induction false} LoopAlternates(pages: seq<Json>, prev: State, acc: State, userMap: DiscordClient.UserMap)
    ensures Alternating(Loop(pages, prev, acc, userMap).events)
    decreases |pages|
  {
    if |pages| > 0 {
      match ReadPage(pages[0])
      case Err(_) =>
      case Ok(None) =>
        LoopAlternates(pages[1..], prev, acc, userMap);
      case Ok(Some(v)) =>
        var next := acc[v.id := v.statusId];
        LoopAlternates(pages[1..], prev, next, userMap);
        if ShouldNotify(prev, v) && NotifyEvents(v, userMap).Ok? {
          AlternatingCons(NotifyEvents(v, userMap).value, Loop(pages[1..], prev, next, userMap).events);
        }
    }
  }

  /** Every post of a run is immediately followed by the patch that clears the force flag. */
  lemma PostThenReset(data: Json, prev: State, userMap: DiscordClient.UserMap, k: nat)
    requires var events := Monitor(data, prev, userMap).events; k < |events| && events[k].Post?
    ensures var events := Monitor(data, prev, userMap).events;
      k + 1 < |events| && events[k + 1].Patch? && events[k + 1].body == ResetForce
  {
    if Pages(data).Ok? {
      LoopAlternates(Pages(data).value, prev, map[], userMap);
      AlternatingPost(Monitor(data, prev, userMap).events, k);
    }
  }

  /** A run in which no page passes the diff emits nothing. */
  lemma {:induction false} LoopQuiet(pages: seq<Json>, prev: State, acc: State, userMap: DiscordClient.UserMap)
    requires Views(pages).Ok?
    requires forall i :: 0 <= i < |Views(pages).value| ==> !ShouldNotify(prev, Views(pages).value[i])
    ensures Loop(pages, prev, acc, userMap) == Run([], Saved(StateOf(Views(pages).value, acc)))
    decreases |pages|
  {
    if |pages| > 0 {
      var rest := Views(pages[1..]).value;
      match ReadPage(pages[0])
      case Ok(None) =>
        LoopQuiet(pages[1..], prev, acc, userMap);
      case Ok(Some(v)) =>
        assert Views(pages).value == [v] + rest;
        assert forall i :: 0 <= i < |rest| ==> rest[i] == Views(pages).value[i + 1];
        LoopQuiet(pages[1..], prev, acc[v.id := v.statusId], userMap);
    }
  }

  /**
   Idempotence: when no page is forced and the titled pages have distinct
   ids, running again on the same response from the saved state, as held in
   memory, sends and patches nothing, and saves the same state.
   */
  lemma MonitorIdempotent(data: Json, prev: State, userMap: DiscordClient.UserMap, saved: State)
    requires Monitor(data, prev, userMap).end == Saved(saved)
    requires Pages(data).Ok? && Views(Pages(data).value).Ok?
    requires var views := Views(Pages(data).value).value;
      DistinctIds(views) && forall i :: 0 <= i < |views| ==> !Truthy(views[i].force)
    ensures Monitor(data, saved, userMap) == Run([], Saved(saved))
  {
    var pages := Pages(data).value;
    var views := Views(pages).value;
    LoopState(pages, prev, map[], userMap);
    forall i | 0 <= i < |views| ensures !ShouldNotify(saved, views[i]) {
      StateOfValues(views, map[], i);
    }
    LoopQuiet(pages, saved, map[], userMap);
  }

  /**
   Idempotence across the state file: the second run starts from what
   `json.load` returns for the saved file. With string page ids, as Notion
   gives them, the round trip changes nothing, so the second run is quiet.
   */
  lemma MonitorIdempotentReloaded(data: Json, prev: State, userMap: DiscordClient.UserMap, saved: State)
    requires Monitor(data, prev, userMap).end == Saved(saved)
    requires Pages(data).Ok? && Views(Pages(data).value).Ok?
    requires var views := Views(Pages(data).value).value;
      && DistinctIds(views)
      && (forall i :: 0 <= i < |views| ==> !Truthy(views[i].force))
      && (forall i :: 0 <= i < |views| ==> views[i].id.JStr?)
    ensures DumpsDistinctly(saved)
    ensures Monitor(data, Reloaded(saved), userMap) == Run([], Saved(saved))
  {
    MonitorState(data, prev, userMap);
    ReloadedStringKeys(saved);
    MonitorIdempotent(data, prev, userMap, saved);
  }
}
