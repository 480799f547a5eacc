/**
 Names shared by the scripts: Notion property names, the status values the
 reconcilers compare against, and the two Discord message templates.
 */
module Config {
  import opened Text

  // Notion property names of the task database.
  const PropTitle := "名前"
  const PropStatus := "ステータス"
  const PropAssignee := "担当者"
  const PropChecker := "確認者"
  const PropDeadline := "締切日"
  const PropSuppressNotify := "非通知"
  const PropForceNotify := "強制通知"
  const PropKind := "種類"

  // Values of the kind select property.
  const KindTask := "タスク"
  const KindConference := "会議"

  /** Status name the progress filter asks for. */
  const StatusNameProgress := "進行中"
  /** Status option id of "in progress" compared against by the status-diff monitor. */
  const StatusIdInProgress := "557498a8-4b29-41fc-b328-54107d7acc4f"

  // Heading labels of the two message templates.
  const LabelDeadline := "締切日"
  const LabelStartDate := "開始日時"

  /** The shared message template; only the date heading label differs between the two uses. */
  function Template(heading: string, title: string, mentions: string, pageUrl: string, when: string): string
  {
    Head(title) + heading + Tail(mentions, pageUrl, when)
  }

  /** The template text in front of the date heading label. */
  function Head(title: string): string
  {
    "\n> # " + title + "\n## "
  }

  /** The template text after the date heading label. */
  function Tail(mentions: string, pageUrl: string, when: string): string
  {
    ": " + when + "\n## 担当者\n" + mentions + "\n\n\U{1F447} **詳細はこちら**\n" + pageUrl + "\n"
  }

  /** Length of the template text in front of the date heading label. */
  function LabelOffset(title: string): nat
  {
    |Head(title)|
  }

  /** The task reminder: a deadline heading. */
  function TaskMessage(title: string, mentions: string, pageUrl: string, deadline: string): (r: string)
    ensures Contains(r, "> # " + title)
    ensures Contains(r, "## 締切日: " + deadline)
    ensures Contains(r, mentions) && Contains(r, pageUrl)
  {
    var r := Template(LabelDeadline, title, mentions, pageUrl, deadline);
    TemplateContents(LabelDeadline, title, mentions, pageUrl, deadline);
    assert "## " + LabelDeadline + ": " + deadline == "## 締切日: " + deadline;
    r
  }

  /** The conference reminder: a start-date heading. */
  function ConferenceMessage(title: string, mentions: string, pageUrl: string, startDate: string): (r: string)
    ensures Contains(r, "> # " + title)
    ensures Contains(r, "## 開始日時: " + startDate)
    ensures Contains(r, mentions) && Contains(r, pageUrl)
  {
    var r := Template(LabelStartDate, title, mentions, pageUrl, startDate);
    TemplateContents(LabelStartDate, title, mentions, pageUrl, startDate);
    assert "## " + LabelStartDate + ": " + startDate == "## 開始日時: " + startDate;
    r
  }

  /** Every argument appears verbatim in the template, in the place its heading announces. */
  lemma TemplateContents(heading: string, title: string, mentions: string, pageUrl: string, when: string)
    ensures Contains(Template(heading, title, mentions, pageUrl, when), "> # " + title)
    ensures Contains(Template(heading, title, mentions, pageUrl, when), "## " + heading + ": " + when)
    ensures Contains(Template(heading, title, mentions, pageUrl, when), mentions)
    ensures Contains(Template(heading, title, mentions, pageUrl, when), pageUrl)
  {
    TitleInTemplate(heading, title, mentions, pageUrl, when);
    HeadingInTemplate(heading, title, mentions, pageUrl, when);
    MentionsInTemplate(heading, title, mentions, pageUrl, when);
    UrlInTemplate(heading, title, mentions, pageUrl, when);
  }

  lemma TitleInTemplate(heading: string, title: string, mentions: string, pageUrl: string, when: string)
    ensures Contains(Template(heading, title, mentions, pageUrl, when), "> # " + title)
  {
    var tail := Tail(mentions, pageUrl, when);
    var t := Template(heading, title, mentions, pageUrl, when);
    var b := "> # " + title;
    assert t == "\n" + b + ("\n## " + heading + tail);
    OccursMiddle("\n", b, "\n## " + heading + tail);
  }

  lemma HeadingInTemplate(heading: string, title: string, mentions: string, pageUrl: string, when: string)
    ensures Contains(Template(heading, title, mentions, pageUrl, when), "## " + heading + ": " + when)
  {
    var tail := Tail(mentions, pageUrl, when);
    var t := Template(heading, title, mentions, pageUrl, when);
    var b := "> # " + title;
    var d := "## " + heading + ": " + when;
    var rest := "\n## 担当者\n" + mentions + "\n\n\U{1F447} **詳細はこちら**\n" + pageUrl + "\n";
    assert tail == ": " + when + rest;
    assert t == ("\n" + b + "\n") + d + rest;
    OccursMiddle("\n" + b + "\n", d, rest);
  }

  lemma MentionsInTemplate(heading: string, title: string, mentions: string, pageUrl: string, when: string)
    ensures Contains(Template(heading, title, mentions, pageUrl, when), mentions)
  {
    var t := Template(heading, title, mentions, pageUrl, when);
    var before := Head(title) + heading + ": " + when + "\n## 担当者\n";
    var after := "\n\n\U{1F447} **詳細はこちら**\n" + pageUrl + "\n";
    assert t == before + mentions + after;
    OccursMiddle(before, mentions, after);
  }

  lemma UrlInTemplate(heading: string, title: string, mentions: string, pageUrl: string, when: string)
    ensures Contains(Template(heading, title, mentions, pageUrl, when), pageUrl)
  {
    var t := Template(heading, title, mentions, pageUrl, when);
    var front := Head(title) + heading + ": " + when + "\n## 担当者\n" + mentions + "\n\n\U{1F447} **詳細はこちら**\n";
    assert t == front + pageUrl + "\n";
    OccursMiddle(front, pageUrl, "\n");
  }

  /**
   The task and conference messages for the same arguments agree everywhere
   except at the date heading label.
   */
  lemma {:induction false} MessagesDifferOnlyInLabel(title: string, mentions: string, pageUrl: string, when: string)
    ensures var t := TaskMessage(title, mentions, pageUrl, when);
            var c := ConferenceMessage(title, mentions, pageUrl, when);
            var k := LabelOffset(title);
            && k + |LabelDeadline| <= |t| && k + |LabelStartDate| <= |c|
            && t[..k] == c[..k]
            && t[k..k + |LabelDeadline|] == LabelDeadline
            && c[k..k + |LabelStartDate|] == LabelStartDate
            && t[k + |LabelDeadline|..] == c[k + |LabelStartDate|..]
  {
    ThreeParts(Head(title), LabelDeadline, Tail(mentions, pageUrl, when));
    ThreeParts(Head(title), LabelStartDate, Tail(mentions, pageUrl, when));
  }
}
