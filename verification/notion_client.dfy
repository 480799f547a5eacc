/**
 The pure part of the Notion client: projections of a fetched page record,
 the member dictionary built from the member database, the page URL, and
 the request bodies for the progress query and the checkbox patch. The
 HTTP calls themselves are left out; their responses are parameters.
 */
module NotionClient {
  import opened PyJson
  import opened Text
  import opened Config

  const NotionHost := "https://www.notion.so/"

  /**
   The title lookup shared by `get_title` and the status-diff monitor:
   `None` when the title property is missing or falsy, or its `title` list
   is falsy; otherwise the first fragment's `plain_text`.
   */
  function TitleLookup(record: Json): Result<Option<Json>>
  {
    var props :- Subscript(record, "properties");
    var titleProp :- GetOr(props, PropTitle, JNull);
    if !Truthy(titleProp) then Ok(None)
    else
      var fragments :- Subscript(titleProp, "title");
      if !Truthy(fragments) then Ok(None)
      else
        var first :- Index(fragments, 0);
        var text :- Subscript(first, "plain_text");
        Ok(Some(text))
  }

  /** The record's property `name`, when the record has a property dict holding it. */
  predicate HasProperty(record: Json, name: string, value: Json) {
    && record.JObj? && "properties" in record.fields
    && record.fields["properties"].JObj?
    && name in record.fields["properties"].fields
    && record.fields["properties"].fields[name] == value
  }

  /** The record has a property dict that lacks `name`. */
  predicate LacksProperty(record: Json, name: string) {
    && record.JObj? && "properties" in record.fields
    && record.fields["properties"].JObj?
    && name !in record.fields["properties"].fields
  }

  /** `get_title`: `None` (here `JNull`) for a missing or empty title, else the first fragment's text. */
  function GetTitle(record: Json): Result<Json>
  {
    var t :- TitleLookup(record);
    match t
    case None => Ok(JNull)
    case Some(text) => Ok(text)
  }

  /**
   The cases of `get_title`, kept out of its contract so that the member
   folds, which mention it for every member, need not carry them.
   */
  lemma GetTitleCases(record: Json)
    ensures !record.JObj? ==> GetTitle(record) == Err(TypeError)
    ensures record.JObj? && "properties" !in record.fields ==> GetTitle(record) == Err(KeyError)
    ensures record.JObj? && "properties" in record.fields && !record.fields["properties"].JObj?
            ==> GetTitle(record) == Err(AttributeError)
    ensures LacksProperty(record, PropTitle) ==> GetTitle(record) == Ok(JNull)
    ensures forall p :: HasProperty(record, PropTitle, p) && !Truthy(p) ==> GetTitle(record) == Ok(JNull)
    ensures forall p :: HasProperty(record, PropTitle, p) && Truthy(p) && !p.JObj? ==> GetTitle(record) == Err(TypeError)
    ensures forall p :: HasProperty(record, PropTitle, p) && p.JObj? && p.fields != map[] && "title" !in p.fields
              ==> GetTitle(record) == Err(KeyError)
    ensures forall p :: HasProperty(record, PropTitle, p) && p.JObj? && "title" in p.fields && !Truthy(p.fields["title"])
              ==> GetTitle(record) == Ok(JNull)
    ensures forall p :: HasProperty(record, PropTitle, p) && p.JObj? && "title" in p.fields
              && p.fields["title"].JArr? && |p.fields["title"].items| > 0
              && p.fields["title"].items[0].JObj? && "plain_text" in p.fields["title"].items[0].fields
              ==> GetTitle(record) == Ok(p.fields["title"].items[0].fields["plain_text"])
    ensures forall p :: HasProperty(record, PropTitle, p) && p.JObj? && "title" in p.fields
              && p.fields["title"].JArr? && |p.fields["title"].items| > 0
              && p.fields["title"].items[0].JObj? && "plain_text" !in p.fields["title"].items[0].fields
              ==> GetTitle(record) == Err(KeyError)
  {
  }

  /** `get_checkbox_value`: the stored `checkbox` value, `False` when the property or its key is absent. */
  function GetCheckboxValue(record: Json, name: string): (r: Result<Json>)
    ensures LacksProperty(record, name) ==> r == Ok(JBool(false))
    ensures forall p :: HasProperty(record, name, p) && p.JObj? && "checkbox" !in p.fields ==> r == Ok(JBool(false))
    ensures forall p :: HasProperty(record, name, p) && p.JObj? && "checkbox" in p.fields ==> r == Ok(p.fields["checkbox"])
    ensures forall p :: HasProperty(record, name, p) && !p.JObj? ==> r == Err(AttributeError)
  {
    var props :- Subscript(record, "properties");
    var prop :- GetOr(props, name, JObj(map[]));
    GetOr(prop, "checkbox", JBool(false))
  }

  /** `get_select_value`: the selected option's name, `None` when the property is absent or nothing is selected. */
  function GetSelectValue(record: Json, name: string): (r: Result<Json>)
    ensures LacksProperty(record, name) ==> r == Ok(JNull)
    ensures forall p :: HasProperty(record, name, p) && !p.JObj? ==> r == Err(AttributeError)
    ensures forall p :: HasProperty(record, name, p) && p.JObj? && "select" !in p.fields ==> r == Ok(JNull)
    ensures forall p :: HasProperty(record, name, p) && p.JObj? && "select" in p.fields && !Truthy(p.fields["select"])
              ==> r == Ok(JNull)
    ensures forall p :: (HasProperty(record, name, p) && p.JObj? && "select" in p.fields
                         && Truthy(p.fields["select"]) && !p.fields["select"].JObj?) ==> r == Err(AttributeError)
    ensures forall p :: (HasProperty(record, name, p) && p.JObj? && "select" in p.fields
                         && p.fields["select"].JObj? && p.fields["select"].fields != map[]) ==>
              r == Ok(if "name" in p.fields["select"].fields then p.fields["select"].fields["name"] else JNull)
  {
    var props :- Subscript(record, "properties");
    var prop :- GetOr(props, name, JObj(map[]));
    var selected :- GetOr(prop, "select", JNull);
    if Truthy(selected) then GetOr(selected, "name", JNull) else Ok(JNull)
  }

  /** `get_relation_records`: `[]` for an empty or null relation, the relation value itself otherwise. */
  function GetRelationRecords(record: Json, name: string): (r: Result<Json>)
    ensures LacksProperty(record, name) ==> r == Err(KeyError)
    ensures forall p :: HasProperty(record, name, p) && p.JObj? && "relation" in p.fields ==>
              r == Ok(if Truthy(p.fields["relation"]) then p.fields["relation"] else JArr([]))
  {
    var props :- Subscript(record, "properties");
    var prop :- Subscript(props, name);
    var relation :- Subscript(prop, "relation");
    if !Truthy(relation) then Ok(JArr([])) else Ok(relation)
  }

  /** `get_deadline`: the deadline's `start`; a missing property or date fails with AttributeError. */
  function GetDeadline(record: Json): (r: Result<Json>)
    ensures LacksProperty(record, PropDeadline) ==> r == Err(AttributeError)
    ensures forall p :: HasProperty(record, PropDeadline, p) && !p.JObj? ==> r == Err(AttributeError)
    ensures forall p :: (HasProperty(record, PropDeadline, p) && p.JObj?
                         && !("date" in p.fields && p.fields["date"].JObj?)) ==> r == Err(AttributeError)
    ensures forall p :: HasProperty(record, PropDeadline, p) && p.JObj? && "date" in p.fields && p.fields["date"].JObj?
              ==> r == Ok(if "start" in p.fields["date"].fields then p.fields["date"].fields["start"] else JNull)
  {
    var props :- Subscript(record, "properties");
    var prop :- GetOr(props, PropDeadline, JNull);
    var date :- GetOr(prop, "date", JNull);
    GetOr(date, "start", JNull)
  }

  /** `member["id"]`. */
  function MemberId(member: Json): Result<Json>
  {
    Subscript(member, "id")
  }

  /**
   The loop of `retrieve_member_dict` from `acc` on: each member adds
   id -> title with `setdefault`, so an id already present keeps its value.
   */
  function MemberFold(members: seq<Json>, acc: map<Json, Json>): Result<map<Json, Json>>
  {
    if |members| == 0 then Ok(acc)
    else
      var id :- MemberId(members[0]);
      var title :- GetTitle(members[0]);
      if !Hashable(id) then Err(TypeError)
      else MemberFold(members[1..], SetDefault(acc, id, title))
  }

  /** Every member has an id and a readable title. */
  predicate AllRead(members: seq<Json>) {
    forall i :: 0 <= i < |members| ==> MemberId(members[i]).Ok? && GetTitle(members[i]).Ok?
  }

  /** The member ids, in listing order. */
  function Ids(members: seq<Json>): (r: seq<Json>)
    requires AllRead(members)
    ensures |r| == |members|
    ensures forall i :: 0 <= i < |members| ==> r[i] == MemberId(members[i]).value
  {
    if |members| == 0 then [] else [MemberId(members[0]).value] + Ids(members[1..])
  }

  lemma IdsCons(members: seq<Json>)
    requires |members| > 0 && AllRead(members)
    ensures AllRead(members[1..])
    ensures Ids(members) == [MemberId(members[0]).value] + Ids(members[1..])
  {
  }

  /** A successful fold has read an id and a title from every member. */
  lemma {:induction false} MemberFoldReads(members: seq<Json>, acc: map<Json, Json>)
    requires MemberFold(members, acc).Ok?
    ensures AllRead(members)
    decreases |members|
  {
    if |members| > 0 {
      var id := MemberId(members[0]).value;
      MemberFoldReads(members[1..], SetDefault(acc, id, GetTitle(members[0]).value));
      forall i | 0 <= i < |members|
        ensures MemberId(members[i]).Ok? && GetTitle(members[i]).Ok?
      {
        if i > 0 {
          assert members[i] == members[1..][i - 1];
        }
      }
    }
  }

  /** The fold keeps every entry of `acc` and adds exactly the member ids. */
  lemma {:induction false} MemberFoldKeys(members: seq<Json>, acc: map<Json, Json>)
    requires MemberFold(members, acc).Ok?
    ensures AllRead(members)
    ensures forall k :: k in MemberFold(members, acc).value <==> k in acc || k in Ids(members)
    ensures forall k :: k in acc ==> MemberFold(members, acc).value[k] == acc[k]
    decreases |members|
  {
    MemberFoldReads(members, acc);
    if |members| > 0 {
      var rest := members[1..];
      MemberFoldUnfold(members, acc);
      IdsCons(members);
      var id := Ids(members)[0];
      var acc' := SetDefault(acc, id, GetTitle(members[0]).value);
      MemberFoldKeys(rest, acc');
      var d := MemberFold(members, acc).value;
      assert d == MemberFold(rest, acc').value;
      forall k ensures k in d <==> k in acc || k in Ids(members) {
        assert k in Ids(members) <==> k == id || k in Ids(rest);
      }
      forall k | k in acc ensures d[k] == acc[k] {
        assert acc'[k] == acc[k];
      }
    }
  }

  /** One step of the fold: the first member's id enters with `setdefault`. */
  lemma MemberFoldUnfold(members: seq<Json>, acc: map<Json, Json>)
    requires |members| > 0 && MemberFold(members, acc).Ok?
    ensures MemberId(members[0]).Ok? && GetTitle(members[0]).Ok?
    ensures var id := MemberId(members[0]).value;
      MemberFold(members, acc)
      == MemberFold(members[1..], SetDefault(acc, id, GetTitle(members[0]).value))
  {
  }

  /** An id not in `acc` maps to the title of its first occurrence. */
  lemma {:induction false} MemberFoldFirstWins(members: seq<Json>, acc: map<Json, Json>, d: map<Json, Json>, i: nat)
    requires MemberFold(members, acc) == Ok(d)
    requires AllRead(members) && i < |members|
    requires Ids(members)[i] !in acc && Ids(members)[i] !in Ids(members)[..i]
    ensures Ids(members)[i] in d && d[Ids(members)[i]] == GetTitle(members[i]).value
    decreases |members|
  {
    if i == 0 {
      FirstWinsHead(members, acc, d);
    } else {
      var id := Ids(members)[0];
      var acc' := SetDefault(acc, id, GetTitle(members[0]).value);
      assert MemberFold(members[1..], acc') == Ok(d) by {
        MemberFoldUnfold(members, acc);
      }
      IdsShift(members, i);
      MemberFoldFirstWins(members[1..], acc', d, i - 1);
    }
  }

  /** The head member's id, when new, enters with its title and is never overwritten. */
  lemma FirstWinsHead(members: seq<Json>, acc: map<Json, Json>, d: map<Json, Json>)
    requires MemberFold(members, acc) == Ok(d)
    requires AllRead(members) && 0 < |members| && Ids(members)[0] !in acc
    ensures Ids(members)[0] in d && d[Ids(members)[0]] == GetTitle(members[0]).value
  {
    var id, title := Ids(members)[0], GetTitle(members[0]).value;
    assert MemberFold(members[1..], SetDefault(acc, id, title)) == Ok(d) by {
      MemberFoldUnfold(members, acc);
    }
    MemberFoldKeys(members[1..], SetDefault(acc, id, title));
  }

  /** A later first occurrence differs from the head and stays a first occurrence in the tail. */
  lemma IdsShift(members: seq<Json>, i: nat)
    requires AllRead(members) && 0 < i < |members|
    requires Ids(members)[i] !in Ids(members)[..i]
    ensures AllRead(members[1..]) && members[1..][i - 1] == members[i]
    ensures Ids(members)[i] == Ids(members[1..])[i - 1] != Ids(members)[0]
    ensures Ids(members)[i] !in Ids(members[1..])[..i - 1]
  {
    var ids := Ids(members);
    IdsCons(members);
    var restIds := Ids(members[1..]);
    assert ids[..i] == [ids[0]] + restIds[..i - 1];
  }

  /**
   `retrieve_member_dict` over the member database's query response: member
   id -> member title. Keys are exactly the member ids; for a repeated id the
   first occurrence's title wins.
   */
  function RetrieveMemberDict(response: Json): (r: Result<map<Json, Json>>)
    ensures r.Ok? ==> response.JObj? && "results" in response.fields
    ensures r.Ok? && response.fields["results"].JArr? ==>
      var members := response.fields["results"].items;
      && AllRead(members)
      && (forall k :: k in r.value <==> k in Ids(members))
      && (forall i :: 0 <= i < |members| && Ids(members)[i] !in Ids(members)[..i]
            ==> r.value[Ids(members)[i]] == GetTitle(members[i]).value)
  {
    var results :- Subscript(response, "results");
    var members :- Elements(results, TypeError);
    var r := MemberFold(members, map[]);
    if r.Ok? then
      MemberFoldKeys(members, map[]);
      assert forall i :: 0 <= i < |members| && Ids(members)[i] !in Ids(members)[..i]
            ==> r.value[Ids(members)[i]] == GetTitle(members[i]).value by {
        forall i | 0 <= i < |members| && Ids(members)[i] !in Ids(members)[..i]
          ensures r.value[Ids(members)[i]] == GetTitle(members[i]).value
        {
          MemberFoldFirstWins(members, map[], r.value, i);
        }
      }
      r
    else r
  }

  /** `build_notion_url`: the Notion host followed by the page id with every hyphen removed. */
  function BuildNotionUrl(pageId: Json): (r: Result<string>)
    ensures r.Ok? <==> pageId.JStr?
    ensures r.Err? ==> r.error == AttributeError
    ensures r.Ok? ==> |NotionHost| <= |r.value| && r.value[..|NotionHost|] == NotionHost
    ensures r.Ok? ==> '-' !in r.value[|NotionHost|..]
    ensures r.Ok? ==> |r.value| == |NotionHost| + |pageId.s| - Count(pageId.s, '-')
    ensures r.Ok? && '-' !in pageId.s ==> r.value == NotionHost + pageId.s
    ensures r.Ok? ==> r.value == NotionHost + RemoveChar(pageId.s, '-')
  {
    match pageId
    case JStr(s) =>
      var clean := RemoveChar(s, '-');
      RemoveCharLength(s, '-');
      assert '-' !in s ==> clean == s by {
        if '-' !in s { RemoveCharAbsent(s, '-'); }
      }
      assert (NotionHost + clean)[|NotionHost|..] == clean;
      Ok(NotionHost + clean)
    case _ => Err(AttributeError)
  }

  /** Building the URL from an already cleaned id gives the same URL. */
  lemma BuildNotionUrlIdempotent(s: string)
    ensures BuildNotionUrl(JStr(RemoveChar(s, '-'))) == BuildNotionUrl(JStr(s))
  {
    RemoveCharAbsent(RemoveChar(s, '-'), '-');
  }

  /**
   The query body of `fetch_db_only_status_progress`. The checkbox property
   it names is a parameter: the constant it reads is not defined in config.
   */
  function ProgressFilter(notifiedProp: string): Json
  {
    JObj(map["filter" := JObj(map["and" := JArr([
      JObj(map["property" := JStr(PropStatus),
               "status" := JObj(map["equals" := JStr(StatusNameProgress)])]),
      JObj(map["property" := JStr(notifiedProp),
               "checkbox" := JObj(map["equals" := JBool(false)])])
    ])])])
  }

  /** The name of the record's status option, when it has one. */
  function StatusName(record: Json, prop: string): Option<Json>
  {
    match GetOr(record, "properties", JNull)
    case Ok(JObj(props)) =>
      if prop in props && props[prop].JObj? && "status" in props[prop].fields
         && props[prop].fields["status"].JObj? && "name" in props[prop].fields["status"].fields
      then Some(props[prop].fields["status"].fields["name"])
      else None
    case _ => None
  }

  /** The record's checkbox value, when it has one. */
  function CheckboxOf(record: Json, prop: string): Option<Json>
  {
    match GetOr(record, "properties", JNull)
    case Ok(JObj(props)) =>
      if prop in props && props[prop].JObj? && "checkbox" in props[prop].fields
      then Some(props[prop].fields["checkbox"])
      else None
    case _ => None
  }

  /**
   Notion's reading of one filter clause of the two shapes the client builds:
   `{property, status: {equals}}` and `{property, checkbox: {equals}}`.
   */
  predicate ClauseHolds(clause: Json, record: Json) {
    && clause.JObj? && "property" in clause.fields && clause.fields["property"].JStr?
    && var prop := clause.fields["property"].s;
       if "status" in clause.fields then
         var cond := clause.fields["status"];
         cond.JObj? && "equals" in cond.fields && StatusName(record, prop) == Some(cond.fields["equals"])
       else if "checkbox" in clause.fields then
         var cond := clause.fields["checkbox"];
         cond.JObj? && "equals" in cond.fields && CheckboxOf(record, prop) == Some(cond.fields["equals"])
       else false
  }

  /** A query body `{filter: {and: [clauses]}}` matches a record when every clause holds. */
  predicate FilterHolds(body: Json, record: Json) {
    && body.JObj? && "filter" in body.fields
    && var f := body.fields["filter"];
       && f.JObj? && "and" in f.fields && f.fields["and"].JArr?
       && forall c :: c in f.fields["and"].items ==> ClauseHolds(c, record)
  }

  /** The progress query selects exactly the in-progress pages whose notified checkbox is false. */
  lemma ProgressFilterMeaning(notifiedProp: string, record: Json)
    ensures FilterHolds(ProgressFilter(notifiedProp), record) <==>
      StatusName(record, PropStatus) == Some(JStr(StatusNameProgress))
      && CheckboxOf(record, notifiedProp) == Some(JBool(false))
  {
    var clauses := ProgressFilter(notifiedProp).fields["filter"].fields["and"].items;
    assert clauses[0] in clauses && clauses[1] in clauses;
  }

  /** The body of `update_page_checkbox`: sets the named property's checkbox and nothing else. */
  function UpdatePageCheckbox(name: string, value: bool): (r: Json)
    ensures r.JObj? && r.fields.Keys == {"properties"}
    ensures r.fields["properties"].JObj? && r.fields["properties"].fields.Keys == {name}
    ensures r.fields["properties"].fields[name] == JObj(map["checkbox" := JBool(value)])
    ensures GetCheckboxValue(r, name) == Ok(JBool(value))
  {
    JObj(map["properties" := JObj(map[name := JObj(map["checkbox" := JBool(value)])])])
  }
}
