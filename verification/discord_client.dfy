/**
 The Discord side of the notified-set reconciler: mention resolution
 through the user map, the task and conference message bodies, and the
 webhook payload. The user map file is a parameter; an empty map is the
 script's own NullException.
 */
module DiscordClient {
  import opened PyJson
  import opened Text
  import opened Config
  import opened Effects
  import NotionClient
  import Dates

  /** The `flags` bit that posts a message without a push notification. */
  const SuppressSendCode := 4096

  /** Member display name -> Discord user id. */
  type UserMap = map<string, string>

  /** `user_map.get(name)` is truthy: the name has a non-empty Discord id. */
  predicate Resolves(userMap: UserMap, name: Json) {
    name.JStr? && name.s in userMap && |userMap[name.s]| > 0
  }

  function Mention(discordId: string): string {
    "<@" + discordId + ">"
  }

  /** The names that have a Discord id, in input order. */
  function MappedNames(names: seq<Json>, userMap: UserMap): (r: seq<string>)
    ensures |r| <= |names|
    ensures forall n :: n in r <==> JStr(n) in names && Resolves(userMap, JStr(n))
    ensures forall j :: 0 <= j < |r| ==> r[j] in userMap && |userMap[r[j]]| > 0
    ensures |names| == 1 ==> r == (if Resolves(userMap, names[0]) then [names[0].s] else [])
  {
    if |names| == 0 then []
    else
      var rest := MappedNames(names[1..], userMap);
      assert forall n :: n in names <==> n == names[0] || n in names[1..];
      if Resolves(userMap, names[0]) then [names[0].s] + rest else rest
  }

  /** The mapped names of two lists are those of the first followed by those of the second. */
  lemma {:induction false} MappedNamesAppend(a: seq<Json>, b: seq<Json>, userMap: UserMap)
    ensures MappedNames(a + b, userMap) == MappedNames(a, userMap) + MappedNames(b, userMap)
  {
    if |a| > 0 {
      assert (a + b)[0] == a[0];
      assert (a + b)[1..] == a[1..] + b;
      MappedNamesAppend(a[1..], b, userMap);
    } else {
      assert a + b == b;
    }
  }

  /**
   The mention loop of `_build_discord_message`: a mention for every name
   with an id, in input order; the others are only reported on the console.
   Looking up a list or dict name raises TypeError.
   */
  function Mentions(names: seq<Json>, userMap: UserMap): (r: Result<seq<string>>)
    ensures r.Ok? <==> forall i :: 0 <= i < |names| ==> Hashable(names[i])
    ensures r.Err? ==> r.error == TypeError
    ensures r.Ok? ==> var mapped := MappedNames(names, userMap);
      |r.value| == |mapped| && forall j :: 0 <= j < |mapped| ==> r.value[j] == Mention(userMap[mapped[j]])
  {
    if |names| == 0 then Ok([])
    else if !Hashable(names[0]) then Err(TypeError)
    else
      match Mentions(names[1..], userMap)
      case Err(e) => Err(e)
      case Ok(rest) =>
        if Resolves(userMap, names[0]) then Ok([Mention(userMap[names[0].s])] + rest) else Ok(rest)
  }

  function Bullets(mentions: seq<string>): (r: seq<string>)
    ensures |r| == |mentions|
    ensures forall j :: 0 <= j < |mentions| ==> r[j] == "\\- " + mentions[j]
  {
    if |mentions| == 0 then [] else ["\\- " + mentions[0]] + Bullets(mentions[1..])
  }

  /** `"\n".join([f"\\- {m}" for m in mentions]).rstrip("\n")`. */
  function MentionBlock(mentions: seq<string>): string
  {
    RStripNewlines(Join("\n", Bullets(mentions)))
  }

  /**
   The mention block has one line `\- <@id>` per resolved name, so its line
   count is the number of mentions (ids containing no newline).
   */
  lemma MentionBlockLines(mentions: seq<string>)
    requires |mentions| > 0
    requires forall j :: 0 <= j < |mentions| ==> '\n' !in mentions[j]
    ensures Split(MentionBlock(mentions), '\n') == Bullets(mentions)
    ensures |Split(MentionBlock(mentions), '\n')| == |mentions|
  {
    var lines := Bullets(mentions);
    forall j | 0 <= j < |lines| ensures '\n' !in lines[j] {
      assert lines[j] == "\\- " + mentions[j];
    }
    var joined := Join("\n", lines);
    JoinEndsWithLast(lines);
    var last := lines[|lines| - 1];
    assert last == "\\- " + mentions[|mentions| - 1];
    assert joined[|joined| - 1] == last[|last| - 1];
    assert last[|last| - 1] in last;
    assert joined[|joined| - 1] != '\n';
    assert RStripNewlines(joined) == joined;
    SplitJoin(lines, '\n');
  }

  /** With no resolved name the mention block is empty. */
  lemma MentionBlockEmpty()
    ensures MentionBlock([]) == ""
    ensures Split(MentionBlock([]), '\n') == [""]
  {
    assert Bullets([]) == [];
    assert Join("\n", []) == "";
  }

  /** A join ends with its last part. */
  lemma {:induction false} JoinEndsWithLast(parts: seq<string>)
    requires |parts| > 0
    ensures var j := Join("\n", parts); var last := parts[|parts| - 1];
      |last| <= |j| && j[|j| - |last|..] == last
    decreases |parts|
  {
    if |parts| > 1 {
      JoinEndsWithLast(parts[1..]);
      assert parts[1..][|parts| - 2] == parts[|parts| - 1];
    }
  }

  /**
   `_build_discord_message`: fails with NullException for an empty user map
   before anything else; otherwise the task template when `isTask` and the
   conference template when not, with the page URL, the mention block and the
   rendered date.
   */
  function BuildDiscordMessage(title: Json, pageId: Json, names: seq<Json>, when: Json, isTask: bool,
                               userMap: UserMap): (r: Result<string>)
    ensures |userMap| == 0 ==> r == Err(NullException)
    ensures r.Ok? <==> && |userMap| > 0 && pageId.JStr? && Mentions(names, userMap).Ok?
                       && Dates.ConvertToDatetimeObj(when).Ok? && Hashable(title)
    ensures r.Ok? ==> |userMap| > 0 && pageId.JStr? && when.JStr? && Hashable(title)
    ensures r.Ok? ==> Mentions(names, userMap).Ok? && Dates.ConvertToDatetimeObj(when).Ok?
    ensures r.Ok? ==> Contains(r.value, "> # " + PyStr(title).value)
    ensures r.Ok? ==> Contains(r.value, NotionClient.BuildNotionUrl(pageId).value)
    ensures r.Ok? ==> Contains(r.value, MentionBlock(Mentions(names, userMap).value))
    ensures r.Ok? && isTask ==> Contains(r.value, "## 締切日: " + Dates.ConvertToDatetimeObj(when).value)
    ensures r.Ok? && !isTask ==> Contains(r.value, "## 開始日時: " + Dates.ConvertToDatetimeObj(when).value)
  {
    if |userMap| == 0 then Err(NullException)
    else
      var pageUrl :- NotionClient.BuildNotionUrl(pageId);
      var mentions :- Mentions(names, userMap);
      var block := MentionBlock(mentions);
      var whenText :- Dates.ConvertToDatetimeObj(when);
      var titleText :- PyStr(title);
      var stripped := RStripNewlines(block);
      assert stripped == block;
      Ok(if isTask then TaskMessage(titleText, stripped, pageUrl, whenText)
         else ConferenceMessage(titleText, stripped, pageUrl, whenText))
  }

  /** `_send_message_to_discord`'s webhook payload. */
  function SendPayload(content: string, silent: bool): (r: Json)
    ensures r.JObj? && r.fields.Keys == {"content", "flags"}
    ensures r.fields["flags"] == JInt(if silent then 4096 else 0)
    ensures r.fields["content"].JStr? && StrippedFrom(content, r.fields["content"].s)
  {
    JObj(map["content" := JStr(Strip(content)), "flags" := JInt(if silent then SuppressSendCode else 0)])
  }

  /** What a `send_*_message` call returns and posts. */
  datatype Sent = Sent(content: string, post: Event)

  /** `send_task_message`: the task template, posted silently; returns the content it built. */
  function SendTaskMessage(title: Json, pageId: Json, names: seq<Json>, deadline: Json, userMap: UserMap)
    : (r: Result<Sent>)
    ensures r.Ok? <==> BuildDiscordMessage(title, pageId, names, deadline, true, userMap).Ok?
    ensures r.Ok? ==> r.value.content == BuildDiscordMessage(title, pageId, names, deadline, true, userMap).value
    ensures r.Ok? ==> r.value.post == Post(SendPayload(r.value.content, true))
  {
    var content :- BuildDiscordMessage(title, pageId, names, deadline, true, userMap);
    Ok(Sent(content, Post(SendPayload(content, true))))
  }

  /** `send_conference_message`: the conference template, posted silently; returns the content it built. */
  function SendConferenceMessage(title: Json, pageId: Json, names: seq<Json>, startTime: Json, userMap: UserMap)
    : (r: Result<Sent>)
    ensures r.Ok? <==> BuildDiscordMessage(title, pageId, names, startTime, false, userMap).Ok?
    ensures r.Ok? ==> r.value.content == BuildDiscordMessage(title, pageId, names, startTime, false, userMap).value
    ensures r.Ok? ==> r.value.post == Post(SendPayload(r.value.content, true))
  {
    var content :- BuildDiscordMessage(title, pageId, names, startTime, false, userMap);
    Ok(Sent(content, Post(SendPayload(content, true))))
  }

  /** The two senders build the same message except for the date heading label. */
  lemma SendersDifferOnlyInLabel(title: Json, pageId: Json, names: seq<Json>, when: Json, userMap: UserMap)
    requires SendTaskMessage(title, pageId, names, when, userMap).Ok?
    ensures SendConferenceMessage(title, pageId, names, when, userMap).Ok?
    ensures var t := SendTaskMessage(title, pageId, names, when, userMap).value.content;
            var c := SendConferenceMessage(title, pageId, names, when, userMap).value.content;
            var k := LabelOffset(PyStr(title).value);
            && t[..k] == c[..k]
            && t[k + |LabelDeadline|..] == c[k + |LabelStartDate|..]
  {
    var url := NotionClient.BuildNotionUrl(pageId).value;
    var block := MentionBlock(Mentions(names, userMap).value);
    var whenText := Dates.ConvertToDatetimeObj(when).value;
    MessagesDifferOnlyInLabel(PyStr(title).value, RStripNewlines(block), url, whenText);
  }
}
