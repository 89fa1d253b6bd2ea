/**
 * The Block Kit rendering of a report: a header, an optional metadata line, the summary,
 * one divider + section per non-empty category (one extra section per action item), and a
 * footer. `Layout` is the rendering; `BuildSlackBlocks` builds it by appending, as the
 * agent does.
 */
module SlackBlocks {
  import opened Json
  import opened Text
  import opened Schema

  /** One Block Kit block; the constructor is the block's `type`. */
  datatype Block = Header(text: string) | Section(text: string) | Divider | Context(text: string) {

    function Kind(): string {
      match this
      case Header(_) => "header"
      case Section(_) => "section"
      case Divider => "divider"
      case Context(_) => "context"
    }

    /** The dict sent to the messaging API; it always carries its `type`. */
    function ToJson(): (r: Json)
      ensures r.JObj? && "type" in r.fields && r.fields["type"] == JStr(Kind())
    {
      match this
      case Header(t) =>
        JObj(map["type" := JStr("header"),
                 "text" := JObj(map["type" := JStr("plain_text"), "text" := JStr(t), "emoji" := JBool(true)])])
      case Section(t) =>
        JObj(map["type" := JStr("section"), "text" := JObj(map["type" := JStr("mrkdwn"), "text" := JStr(t)])])
      case Divider =>
        JObj(map["type" := JStr("divider")])
      case Context(t) =>
        JObj(map["type" := JStr("context"),
                 "elements" := JArr([JObj(map["type" := JStr("mrkdwn"), "text" := JStr(t)])])])
    }
  }

  function BlocksJson(blocks: seq<Block>): (r: seq<Json>)
    ensures |r| == |blocks|
    ensures forall i :: 0 <= i < |blocks| ==> r[i] == blocks[i].ToJson()
  {
    seq(|blocks|, i requires 0 <= i < |blocks| => blocks[i].ToJson())
  }

  // ---------------------------------------------------------------------------
  // Texts
  // ---------------------------------------------------------------------------

  const UnknownDate: string := "Unknown Date"
  const MetaSeparator: string := "  |  "
  const SummaryTitle: string := "*\U{1F4CB} Summary*"
  const DecisionsTitle: string := "*\U{2705} Key Decisions*"
  const ActionItemsTitle: string := "*\U{26A1} Action Items*"
  const BlockersTitle: string := "*\U{1F6A7} Blockers*"
  const FollowUpsTitle: string := "*\U{1F501} Follow-ups*"
  const Footer: string := "_Generated by Aden Hive Meeting Notes Agent \U{B7} https://adenhq.com_"

  const DecisionMark: string := "\U{2022} "
  const BlockerMark: string := "\U{26A0}\U{FE0F} "
  const FollowUpMark: string := "\U{2192} "

  const HighMark: char := '\U{1F534}'
  const MediumMark: char := '\U{1F7E1}'
  const LowMark: char := '\U{1F7E2}'
  const NeutralMark: char := '\U{26AA}'

  function HeaderText(meetingName: string): string {
    "\U{1F41D} " + meetingName
  }

  /** The pieces of the metadata line: the date unless empty or the placeholder, and the attendees. */
  function MetaParts(meetingDate: string, attendees: seq<string>): seq<string> {
    (if meetingDate != "" && meetingDate != UnknownDate then ["\U{1F4C5} *" + meetingDate + "*"] else [])
    + (if |attendees| > 0 then ["\U{1F465} " + Join(", ", attendees)] else [])
  }

  /** The indicator of a priority; anything unrecognised gets the neutral one. */
  function PriorityMark(priority: string): char {
    if priority == "high" then HighMark
    else if priority == "medium" then MediumMark
    else if priority == "low" then LowMark
    else NeutralMark
  }

  function ItemBlock(item: ActionItem): Block {
    Section([PriorityMark(item.priority)] + " *" + item.task + "*\n   \U{1F464} " + item.owner
            + "   \U{1F4C5} " + item.due + "   `" + Upper(item.priority) + "`")
  }

  /** A category section: its title, then one marked line per entry. */
  function ListText(title: string, mark: string, xs: seq<string>): string {
    title + "\n" + Join("\n", Prefixed(mark, xs))
  }

  // ---------------------------------------------------------------------------
  // The layout, part by part
  // ---------------------------------------------------------------------------

  function MetaBlocks(meetingDate: string, attendees: seq<string>): seq<Block> {
    var parts := MetaParts(meetingDate, attendees);
    if |parts| > 0 then [Section(Join(MetaSeparator, parts))] else []
  }

  function CategoryBlocks(title: string, mark: string, xs: seq<string>): seq<Block> {
    if |xs| > 0 then [Divider, Section(ListText(title, mark, xs))] else []
  }

  /** One block per action item, in order. */
  function ItemBlocks(items: seq<ActionItem>): (r: seq<Block>)
    ensures |r| == |items|
    ensures forall i :: 0 <= i < |items| ==> r[i] == ItemBlock(items[i])
  {
    if items == [] then []
    else ItemBlocks(items[..|items| - 1]) + [ItemBlock(items[|items| - 1])]
  }

  function ActionItemBlocks(items: seq<ActionItem>): seq<Block> {
    if |items| > 0 then [Divider, Section(ActionItemsTitle)] + ItemBlocks(items) else []
  }

  function TopBlocks(meetingName: string): seq<Block> {
    [Header(HeaderText(meetingName))]
  }

  function SummaryBlocks(summary: string): seq<Block> {
    [Divider, Section(SummaryTitle + "\n" + summary)]
  }

  function FooterBlocks(): seq<Block> {
    [Divider, Context(Footer)]
  }

  /** The header, the optional metadata line and the summary. */
  function HeadBlocks(n: MeetingNotes, meetingName: string, meetingDate: string): seq<Block> {
    TopBlocks(meetingName) + MetaBlocks(meetingDate, n.attendees) + SummaryBlocks(n.summary)
  }

  /** The categories and action items between the summary and the footer. */
  function MiddleBlocks(n: MeetingNotes): seq<Block> {
    CategoryBlocks(DecisionsTitle, DecisionMark, n.decisions)
    + ActionItemBlocks(n.actionItems)
    + CategoryBlocks(BlockersTitle, BlockerMark, n.blockers)
    + CategoryBlocks(FollowUpsTitle, FollowUpMark, n.followUps)
  }

  /** The blocks of a report: the rendering the agent posts. */
  function Layout(n: MeetingNotes, meetingName: string, meetingDate: string): seq<Block> {
    HeadBlocks(n, meetingName, meetingDate) + MiddleBlocks(n) + FooterBlocks()
  }

  /** Appends a category: a divider and its titled list when the list is non-empty. */
  method AppendCategory(prefix: seq<Block>, title: string, mark: string, xs: seq<string>) returns (blocks: seq<Block>)
    ensures blocks == prefix + CategoryBlocks(title, mark, xs)
  {
    blocks := prefix;
    if |xs| > 0 {
      blocks := blocks + [Divider];
      blocks := blocks + [Section(ListText(title, mark, xs))];
    }
  }

  /** Appends the action-item part: a divider and a title, then one block per item, in order. */
  method AppendActionItems(prefix: seq<Block>, items: seq<ActionItem>) returns (blocks: seq<Block>)
    ensures blocks == prefix + ActionItemBlocks(items)
  {
    blocks := prefix;
    if |items| > 0 {
      blocks := blocks + [Divider];
      blocks := blocks + [Section(ActionItemsTitle)];
      ghost var before := blocks;
      for i := 0 to |items|
        invariant blocks == before + ItemBlocks(items[..i])
      {
        blocks := blocks + [ItemBlock(items[i])];
        assert items[..i + 1][..i] == items[..i];
      }
      assert items[..|items|] == items;
    }
  }

  /** Appends the metadata line: the date unless it is unknown, then the attendees, when either is shown. */
  method AppendMeta(prefix: seq<Block>, meetingDate: string, attendees: seq<string>) returns (blocks: seq<Block>)
    ensures blocks == prefix + MetaBlocks(meetingDate, attendees)
  {
    blocks := prefix;
    var metaParts: seq<string> := [];
    if meetingDate != "" && meetingDate != UnknownDate {
      metaParts := metaParts + ["\U{1F4C5} *" + meetingDate + "*"];
    }
    if |attendees| > 0 {
      metaParts := metaParts + ["\U{1F465} " + Join(", ", attendees)];
    }
    assert metaParts == MetaParts(meetingDate, attendees);
    if |metaParts| > 0 {
      blocks := blocks + [Section(Join(MetaSeparator, metaParts))];
    }
  }

  /** Appends the categories and the action items, in the order they are posted. */
  method AppendMiddle(prefix: seq<Block>, n: MeetingNotes) returns (blocks: seq<Block>)
    ensures blocks == prefix + MiddleBlocks(n)
  {
    var decisions := CategoryBlocks(DecisionsTitle, DecisionMark, n.decisions);
    var items := ActionItemBlocks(n.actionItems);
    var blockers := CategoryBlocks(BlockersTitle, BlockerMark, n.blockers);
    var followUps := CategoryBlocks(FollowUpsTitle, FollowUpMark, n.followUps);
    blocks := AppendCategory(prefix, DecisionsTitle, DecisionMark, n.decisions);
    blocks := AppendActionItems(blocks, n.actionItems);
    assert blocks == prefix + (decisions + items);
    blocks := AppendCategory(blocks, BlockersTitle, BlockerMark, n.blockers);
    assert blocks == prefix + (decisions + items + blockers);
    blocks := AppendCategory(blocks, FollowUpsTitle, FollowUpMark, n.followUps);
    assert blocks == prefix + (decisions + items + blockers + followUps);
  }

  /** Builds the blocks by appending, one action item at a time. */
  method BuildSlackBlocks(n: MeetingNotes, meetingName: string, meetingDate: string) returns (blocks: seq<Block>)
    ensures blocks == Layout(n, meetingName, meetingDate)
  {
    blocks := [];
    blocks := blocks + [Header(HeaderText(meetingName))];
    blocks := AppendMeta(blocks, meetingDate, n.attendees);
    blocks := blocks + [Divider];
    blocks := blocks + [Section(SummaryTitle + "\n" + n.summary)];
    assert blocks == HeadBlocks(n, meetingName, meetingDate);
    blocks := AppendMiddle(blocks, n);
    blocks := blocks + [Divider];
    blocks := blocks + [Context(Footer)];
  }

  // ---------------------------------------------------------------------------
  // Properties of the layout
  // ---------------------------------------------------------------------------

  function Count(b: bool): nat {
    if b then 1 else 0
  }

  predicate ShowsMeta(meetingDate: string, attendees: seq<string>) {
    (meetingDate != "" && meetingDate != UnknownDate) || |attendees| > 0
  }

  /**
   * The layout opens with the header naming the meeting, followed by the metadata block
   * exactly when there is a real date or attendees, then a divider and the summary; it
   * closes with a divider and the footer. Its length counts one header, the optional
   * metadata, two summary blocks, two per non-empty category plus one per action item,
   * and two footer blocks.
   */
  lemma LayoutShape(n: MeetingNotes, meetingName: string, meetingDate: string)
    ensures var blocks := Layout(n, meetingName, meetingDate);
      var m := Count(ShowsMeta(meetingDate, n.attendees));
      && |blocks| == 5 + m
           + 2 * Count(|n.decisions| > 0)
           + (if |n.actionItems| > 0 then 2 + |n.actionItems| else 0)
           + 2 * Count(|n.blockers| > 0)
           + 2 * Count(|n.followUps| > 0)
      && blocks[0] == Header(HeaderText(meetingName))
      && (m == 1 <==> blocks[1].Section?)
      && blocks[1 + m] == Divider
      && blocks[2 + m] == Section(SummaryTitle + "\n" + n.summary)
      && blocks[|blocks| - 2] == Divider
      && blocks[|blocks| - 1] == Context(Footer)
  {
    var top := HeadBlocks(n, meetingName, meetingDate);
    TopShape(n, meetingName, meetingDate);
    MiddleLength(n);
    ThreeParts(top, MiddleBlocks(n), FooterBlocks());
  }

  /** Where the first and the last part of a three-part concatenation lie. */
  lemma ThreeParts<T>(a: seq<T>, b: seq<T>, c: seq<T>)
    ensures |a + b + c| == |a| + |b| + |c|
    ensures forall i :: 0 <= i < |a| ==> (a + b + c)[i] == a[i]
    ensures forall i :: 0 <= i < |c| ==> (a + b + c)[|a| + |b| + i] == c[i]
  {
  }

  lemma MiddleLength(n: MeetingNotes)
    ensures |MiddleBlocks(n)| == 2 * Count(|n.decisions| > 0)
      + (if |n.actionItems| > 0 then 2 + |n.actionItems| else 0)
      + 2 * Count(|n.blockers| > 0)
      + 2 * Count(|n.followUps| > 0)
  {
  }

  lemma TopShape(n: MeetingNotes, meetingName: string, meetingDate: string)
    ensures var top := HeadBlocks(n, meetingName, meetingDate);
      var m := Count(ShowsMeta(meetingDate, n.attendees));
      && |top| == 3 + m
      && top[0] == Header(HeaderText(meetingName))
      && (m == 1 <==> top[1].Section?)
      && top[1 + m] == Divider
      && top[2 + m] == Section(SummaryTitle + "\n" + n.summary)
  {
    var parts := MetaParts(meetingDate, n.attendees);
    assert |parts| > 0 <==> ShowsMeta(meetingDate, n.attendees);
  }

  /**
   * The action items occupy a contiguous run after the decisions: a divider, their title,
   * and then one block per item in input order, marked by its priority.
   */
  lemma ActionItemsPlacement(n: MeetingNotes, meetingName: string, meetingDate: string)
    requires |n.actionItems| > 0
    ensures var blocks := Layout(n, meetingName, meetingDate);
      var start := 3 + Count(ShowsMeta(meetingDate, n.attendees)) + 2 * Count(|n.decisions| > 0);
      && start + 2 + |n.actionItems| <= |blocks|
      && blocks[start] == Divider
      && blocks[start + 1] == Section(ActionItemsTitle)
      && forall i :: 0 <= i < |n.actionItems| ==> blocks[start + 2 + i] == ItemBlock(n.actionItems[i])
  {
    var before := HeadBlocks(n, meetingName, meetingDate) + CategoryBlocks(DecisionsTitle, DecisionMark, n.decisions);
    var items := ActionItemBlocks(n.actionItems);
    var rest := CategoryBlocks(BlockersTitle, BlockerMark, n.blockers)
      + CategoryBlocks(FollowUpsTitle, FollowUpMark, n.followUps) + FooterBlocks();
    LayoutAroundItems(n, meetingName, meetingDate);
    TopShape(n, meetingName, meetingDate);
    Splice(Layout(n, meetingName, meetingDate), before, items, rest);
    assert items == [Divider, Section(ActionItemsTitle)] + ItemBlocks(n.actionItems);
  }

  /** The layout regrouped around the action-item part. */
  lemma LayoutAroundItems(n: MeetingNotes, meetingName: string, meetingDate: string)
    ensures Layout(n, meetingName, meetingDate) ==
      (HeadBlocks(n, meetingName, meetingDate) + CategoryBlocks(DecisionsTitle, DecisionMark, n.decisions))
      + ActionItemBlocks(n.actionItems)
      + (CategoryBlocks(BlockersTitle, BlockerMark, n.blockers)
         + CategoryBlocks(FollowUpsTitle, FollowUpMark, n.followUps) + FooterBlocks())
  {
    var head := HeadBlocks(n, meetingName, meetingDate);
    var decisions := CategoryBlocks(DecisionsTitle, DecisionMark, n.decisions);
    var items := ActionItemBlocks(n.actionItems);
    var blockers := CategoryBlocks(BlockersTitle, BlockerMark, n.blockers);
    var followUps := CategoryBlocks(FollowUpsTitle, FollowUpMark, n.followUps);
    var footer := FooterBlocks();
    Regroup(head, decisions, items, blockers + followUps, footer);
    assert blockers + followUps + footer == (blockers + followUps) + footer;
  }

  lemma Regroup<T>(a: seq<T>, b: seq<T>, c: seq<T>, d: seq<T>, e: seq<T>)
    ensures a + (b + c + d) + e == (a + b) + c + (d + e)
  {
  }

  /** Where the middle part of a three-part concatenation lies. */
  lemma Splice(blocks: seq<Block>, before: seq<Block>, items: seq<Block>, rest: seq<Block>)
    requires blocks == before + items + rest
    ensures |before| + |items| <= |blocks|
    ensures forall i :: 0 <= i < |items| ==> blocks[|before| + i] == items[i]
  {
  }

  /** The marks of the three admissible priorities; only other values get the neutral mark. */
  lemma PriorityMarks(p: string)
    ensures p == "high" ==> PriorityMark(p) == HighMark
    ensures p == "medium" ==> PriorityMark(p) == MediumMark
    ensures p == "low" ==> PriorityMark(p) == LowMark
    ensures PriorityMark(p) == NeutralMark <==> !ValidPriority(p)
  {
  }

  // ---------------------------------------------------------------------------
  // Reading the layout back: which categories are present
  // ---------------------------------------------------------------------------

  /** Some section of `blocks` starts with `title`. */
  predicate HasSection(blocks: seq<Block>, title: string) {
    exists i :: 0 <= i < |blocks| && blocks[i].Section? && title <= blocks[i].text
  }

  /** The titles of the four optional categories. */
  predicate IsCategoryTitle(title: string) {
    title in {DecisionsTitle, ActionItemsTitle, BlockersTitle, FollowUpsTitle}
  }

  lemma HasSectionConcat(a: seq<Block>, b: seq<Block>, title: string)
    ensures HasSection(a + b, title) <==> HasSection(a, title) || HasSection(b, title)
  {
    if HasSection(a + b, title) {
      var i :| 0 <= i < |a + b| && (a + b)[i].Section? && title <= (a + b)[i].text;
      if i >= |a| {
        assert b[i - |a|] == (a + b)[i];
      }
    }
    if HasSection(a, title) {
      var i :| 0 <= i < |a| && a[i].Section? && title <= a[i].text;
      assert (a + b)[i] == a[i];
    }
    if HasSection(b, title) {
      var i :| 0 <= i < |b| && b[i].Section? && title <= b[i].text;
      assert (a + b)[|a| + i] == b[i];
    }
  }

  /** No section text that starts with a non-`*` character starts with a title. */
  lemma NoTitleInUnstarred(blocks: seq<Block>, title: string)
    requires IsCategoryTitle(title)
    requires forall i :: 0 <= i < |blocks| && blocks[i].Section? ==>
      blocks[i].text != [] && blocks[i].text[0] != '*'
    ensures !HasSection(blocks, title)
  {
    forall i | 0 <= i < |blocks| && blocks[i].Section?
      ensures !(title <= blocks[i].text)
    {
      assert title[0] == '*';
    }
  }

  lemma CategoryPresence(title: string, mark: string, xs: seq<string>, t: string)
    requires IsCategoryTitle(title) && IsCategoryTitle(t)
    ensures HasSection(CategoryBlocks(title, mark, xs), t) <==> |xs| > 0 && t == title
  {
    var blocks := CategoryBlocks(title, mark, xs);
    if |xs| > 0 {
      var text := ListText(title, mark, xs);
      assert blocks[1] == Section(text);
      if t == title {
        assert title <= text;
      } else {
        forall i | 0 <= i < |blocks| && blocks[i].Section?
          ensures !(t <= blocks[i].text)
        {
          assert blocks[i].text[1] == title[1];
        }
      }
    }
  }

  lemma ActionItemPresence(items: seq<ActionItem>, t: string)
    requires IsCategoryTitle(t)
    ensures HasSection(ActionItemBlocks(items), t) <==> |items| > 0 && t == ActionItemsTitle
  {
    if |items| > 0 {
      var head := [Divider, Section(ActionItemsTitle)];
      HasSectionConcat(head, ItemBlocks(items), t);
      assert head[1] == Section(ActionItemsTitle);
      if t == ActionItemsTitle {
        assert t <= head[1].text;
      } else {
        forall i | 0 <= i < |head| && head[i].Section?
          ensures !(t <= head[i].text)
        {
          assert head[i].text == ActionItemsTitle;
          assert t[1] != ActionItemsTitle[1];
        }
      }
      NoTitleInUnstarred(ItemBlocks(items), t);
    }
  }

  /** The blocks that are there whatever the report holds carry no category title. */
  lemma FixedBlocksUntitled(n: MeetingNotes, meetingName: string, meetingDate: string, t: string)
    requires IsCategoryTitle(t)
    ensures !HasSection(TopBlocks(meetingName), t)
    ensures !HasSection(MetaBlocks(meetingDate, n.attendees), t)
    ensures !HasSection(SummaryBlocks(n.summary), t)
    ensures !HasSection(FooterBlocks(), t)
  {
    NoTitleInUnstarred(TopBlocks(meetingName), t);
    NoTitleInUnstarred(FooterBlocks(), t);
    var parts := MetaParts(meetingDate, n.attendees);
    if |parts| > 0 {
      assert parts[0] <= Join(MetaSeparator, parts);
      NoTitleInUnstarred(MetaBlocks(meetingDate, n.attendees), t);
    }
    var summary := SummaryBlocks(n.summary);
    forall i | 0 <= i < |summary| && summary[i].Section?
      ensures !(t <= summary[i].text)
    {
      assert summary[i].text[1] == SummaryTitle[1];
    }
  }

  /** A title appears in the layout exactly when it appears in one of the category parts. */
  lemma LayoutSections(n: MeetingNotes, meetingName: string, meetingDate: string, t: string)
    requires IsCategoryTitle(t)
    ensures HasSection(Layout(n, meetingName, meetingDate), t) <==>
      HasSection(CategoryBlocks(DecisionsTitle, DecisionMark, n.decisions), t)
      || HasSection(ActionItemBlocks(n.actionItems), t)
      || HasSection(CategoryBlocks(BlockersTitle, BlockerMark, n.blockers), t)
      || HasSection(CategoryBlocks(FollowUpsTitle, FollowUpMark, n.followUps), t)
  {
    var top := TopBlocks(meetingName);
    var meta := MetaBlocks(meetingDate, n.attendees);
    var summary := SummaryBlocks(n.summary);
    var decisions := CategoryBlocks(DecisionsTitle, DecisionMark, n.decisions);
    var items := ActionItemBlocks(n.actionItems);
    var blockers := CategoryBlocks(BlockersTitle, BlockerMark, n.blockers);
    var followUps := CategoryBlocks(FollowUpsTitle, FollowUpMark, n.followUps);
    var bottom := FooterBlocks();
    HasSectionConcat(top, meta, t);
    HasSectionConcat(top + meta, summary, t);
    HasSectionConcat(decisions, items, t);
    HasSectionConcat(decisions + items, blockers, t);
    HasSectionConcat(decisions + items + blockers, followUps, t);
    var head := HeadBlocks(n, meetingName, meetingDate);
    var middle := MiddleBlocks(n);
    HasSectionConcat(head, middle, t);
    HasSectionConcat(head + middle, bottom, t);
    FixedBlocksUntitled(n, meetingName, meetingDate, t);
  }

  /**
   * Rendering and then looking for each category's title finds it exactly when that
   * category's list is non-empty: decisions, action items, blockers and follow-ups.
   */
  lemma CategoriesPresentIffNonEmpty(n: MeetingNotes, meetingName: string, meetingDate: string)
    ensures var blocks := Layout(n, meetingName, meetingDate);
      && (HasSection(blocks, DecisionsTitle) <==> |n.decisions| > 0)
      && (HasSection(blocks, ActionItemsTitle) <==> |n.actionItems| > 0)
      && (HasSection(blocks, BlockersTitle) <==> |n.blockers| > 0)
      && (HasSection(blocks, FollowUpsTitle) <==> |n.followUps| > 0)
  {
    forall t | IsCategoryTitle(t)
      ensures HasSection(Layout(n, meetingName, meetingDate), t) <==>
        (t == DecisionsTitle && |n.decisions| > 0)
        || (t == ActionItemsTitle && |n.actionItems| > 0)
        || (t == BlockersTitle && |n.blockers| > 0)
        || (t == FollowUpsTitle && |n.followUps| > 0)
    {
      LayoutSections(n, meetingName, meetingDate, t);
      CategoryPresence(DecisionsTitle, DecisionMark, n.decisions, t);
      ActionItemPresence(n.actionItems, t);
      CategoryPresence(BlockersTitle, BlockerMark, n.blockers, t);
      CategoryPresence(FollowUpsTitle, FollowUpMark, n.followUps, t);
    }
  }

  /** Every block handed to the messaging API has a `type`. */
  lemma EveryBlockTyped(n: MeetingNotes, meetingName: string, meetingDate: string)
    ensures forall j :: j in BlocksJson(Layout(n, meetingName, meetingDate)) ==>
      j.JObj? && "type" in j.fields
  {
  }

  /** A validated report never shows the neutral priority mark. */
  lemma WellFormedHasNoNeutralMark(n: MeetingNotes)
    requires WellFormed(n)
    ensures forall i :: 0 <= i < |n.actionItems| ==> PriorityMark(n.actionItems[i].priority) != NeutralMark
  {
  }
}
