/**
 * The structured report and its validation against decoded JSON, in the role of the
 * `ActionItem` and `MeetingNotesOutput` models: required and defaulted fields, field types,
 * and the priority enumeration. `Dump` is the dict a validated report is stored as.
 */
module Schema {
  import opened Wrappers
  import opened Json

  datatype ActionItem = ActionItem(task: string, owner: string, due: string, priority: string)

  datatype MeetingNotes = MeetingNotes(
    summary: string,
    attendees: seq<string>,
    decisions: seq<string>,
    actionItems: seq<ActionItem>,
    blockers: seq<string>,
    followUps: seq<string>,
    slackMessageSent: bool)

  /** Why a decoded value does not fit the schema. */
  datatype SchemaError =
    | NotAnObject(field: string)
    | MissingField(field: string)
    | WrongType(field: string)
    | BadPriority(value: string)

  const DefaultDue: string := "TBD"
  const DefaultPriority: string := "medium"

  /** The values the pattern `^(high|medium|low)$` admits. */
  predicate ValidPriority(p: string) {
    p == "high" || p == "medium" || p == "low"
  }

  /** A report every action item of which has an admissible priority. */
  predicate WellFormed(n: MeetingNotes) {
    forall i :: 0 <= i < |n.actionItems| ==> ValidPriority(n.actionItems[i].priority)
  }

  // ---------------------------------------------------------------------------
  // Field readers
  // ---------------------------------------------------------------------------

  /** A required `str` field. */
  function RequiredString(fields: map<string, Json>, key: string): Result<string, SchemaError> {
    if key !in fields then Failure(MissingField(key))
    else if fields[key].JStr? then Success(fields[key].s)
    else Failure(WrongType(key))
  }

  /** An optional `str` field with a default. */
  function OptionalString(fields: map<string, Json>, key: string, default: string): Result<string, SchemaError> {
    if key !in fields then Success(default)
    else if fields[key].JStr? then Success(fields[key].s)
    else Failure(WrongType(key))
  }

  /** The elements of a `list[str]`. */
  function Strings(key: string, xs: seq<Json>): (r: Result<seq<string>, SchemaError>)
    ensures r.Success? <==> forall i :: 0 <= i < |xs| ==> xs[i].JStr?
    ensures r.Success? ==> |r.value| == |xs| && forall i :: 0 <= i < |xs| ==> xs[i] == JStr(r.value[i])
  {
    if xs == [] then Success([])
    else if !xs[0].JStr? then Failure(WrongType(key))
    else
      match Strings(key, xs[1..])
      case Failure(e) => Failure(e)
      case Success(rest) => Success([xs[0].s] + rest)
  }

  /** A `list[str]` field defaulting to the empty list. */
  function StringList(fields: map<string, Json>, key: string): Result<seq<string>, SchemaError> {
    if key !in fields then Success([])
    else if fields[key].JArr? then Strings(key, fields[key].items)
    else Failure(WrongType(key))
  }

  // ---------------------------------------------------------------------------
  // The two models
  // ---------------------------------------------------------------------------

  /** `ActionItem(**fields)`: task and owner required, due and priority defaulted. */
  function ParseActionItem(j: Json): Result<ActionItem, SchemaError> {
    if !j.JObj? then Failure(NotAnObject("action_items"))
    else
      var task :- RequiredString(j.fields, "task");
      var owner :- RequiredString(j.fields, "owner");
      var due :- OptionalString(j.fields, "due", DefaultDue);
      var priority :- OptionalString(j.fields, "priority", DefaultPriority);
      if !ValidPriority(priority) then Failure(BadPriority(priority))
      else Success(ActionItem(task, owner, due, priority))
  }

  function ActionItems(xs: seq<Json>): (r: Result<seq<ActionItem>, SchemaError>)
    ensures r.Success? <==> forall i :: 0 <= i < |xs| ==> ParseActionItem(xs[i]).Success?
    ensures r.Success? ==> |r.value| == |xs|
    ensures r.Success? ==> forall i :: 0 <= i < |xs| ==> ParseActionItem(xs[i]) == Success(r.value[i])
  {
    if xs == [] then Success([])
    else
      match ParseActionItem(xs[0])
      case Failure(e) => Failure(e)
      case Success(item) =>
        match ActionItems(xs[1..])
        case Failure(e) => Failure(e)
        case Success(rest) => Success([item] + rest)
  }

  function ActionItemList(fields: map<string, Json>): Result<seq<ActionItem>, SchemaError> {
    if "action_items" !in fields then Success([])
    else if fields["action_items"].JArr? then ActionItems(fields["action_items"].items)
    else Failure(WrongType("action_items"))
  }

  function OptionalBool(fields: map<string, Json>, key: string): Result<bool, SchemaError> {
    if key !in fields then Success(false)
    else if fields[key].JBool? then Success(fields[key].b)
    else Failure(WrongType(key))
  }

  /** `MeetingNotesOutput(**fields)`: summary required, every list defaulting to empty. */
  function ParseNotes(fields: map<string, Json>): Result<MeetingNotes, SchemaError> {
    var summary :- RequiredString(fields, "summary");
    var attendees :- StringList(fields, "attendees");
    var decisions :- StringList(fields, "decisions");
    var actionItems :- ActionItemList(fields);
    var blockers :- StringList(fields, "blockers");
    var followUps :- StringList(fields, "follow_ups");
    var sent :- OptionalBool(fields, "slack_message_sent");
    Success(MeetingNotes(summary, attendees, decisions, actionItems, blockers, followUps, sent))
  }

  // ---------------------------------------------------------------------------
  // model_dump
  // ---------------------------------------------------------------------------

  function DumpStrings(xs: seq<string>): (r: Json)
    ensures r.JArr? && |r.items| == |xs|
    ensures forall i :: 0 <= i < |xs| ==> r.items[i] == JStr(xs[i])
  {
    JArr(seq(|xs|, i requires 0 <= i < |xs| => JStr(xs[i])))
  }

  function DumpItem(item: ActionItem): Json {
    JObj(map[
      "task" := JStr(item.task),
      "owner" := JStr(item.owner),
      "due" := JStr(item.due),
      "priority" := JStr(item.priority)])
  }

  function DumpItems(items: seq<ActionItem>): (r: Json)
    ensures r.JArr? && |r.items| == |items|
    ensures forall i :: 0 <= i < |items| ==> r.items[i] == DumpItem(items[i])
  {
    JArr(seq(|items|, i requires 0 <= i < |items| => DumpItem(items[i])))
  }

  /** `notes.model_dump()`. */
  function Dump(n: MeetingNotes): Json {
    JObj(map[
      "summary" := JStr(n.summary),
      "attendees" := DumpStrings(n.attendees),
      "decisions" := DumpStrings(n.decisions),
      "action_items" := DumpItems(n.actionItems),
      "blockers" := DumpStrings(n.blockers),
      "follow_ups" := DumpStrings(n.followUps),
      "slack_message_sent" := JBool(n.slackMessageSent)])
  }

  // ---------------------------------------------------------------------------
  // Properties
  // ---------------------------------------------------------------------------

  /**
   * An action item whose task and owner are strings is accepted exactly when its due date
   * is absent or a string and its priority is absent or one of high, medium, low; absent
   * fields take "TBD" and "medium". Empty task and owner strings are accepted.
   */
  lemma ActionItemRules(fields: map<string, Json>, task: string, owner: string)
    requires "task" in fields && fields["task"] == JStr(task)
    requires "owner" in fields && fields["owner"] == JStr(owner)
    ensures ParseActionItem(JObj(fields)).Success? <==>
      && ("due" !in fields || fields["due"].JStr?)
      && ("priority" !in fields || (fields["priority"].JStr? && ValidPriority(fields["priority"].s)))
    ensures ParseActionItem(JObj(fields)).Success? ==>
      var item := ParseActionItem(JObj(fields)).value;
      && item.task == task && item.owner == owner
      && item.due == (if "due" in fields then fields["due"].s else "TBD")
      && item.priority == (if "priority" in fields then fields["priority"].s else "medium")
  {
  }

  /** A missing task or owner, or a priority outside the enumeration, is rejected. */
  lemma ActionItemRejections(fields: map<string, Json>)
    ensures "task" !in fields ==> ParseActionItem(JObj(fields)) == Failure(MissingField("task"))
    ensures "task" in fields && fields["task"].JStr? && "owner" !in fields ==>
      ParseActionItem(JObj(fields)) == Failure(MissingField("owner"))
    ensures "priority" in fields && fields["priority"].JStr? && !ValidPriority(fields["priority"].s) ==>
      ParseActionItem(JObj(fields)).Failure?
  {
  }

  /** Every validated report has admissible priorities only. */
  lemma ParsedNotesWellFormed(fields: map<string, Json>)
    requires ParseNotes(fields).Success?
    ensures WellFormed(ParseNotes(fields).value)
  {
    if "action_items" in fields {
      var f := fields["action_items"];
      var items := ParseNotes(fields).value.actionItems;
      forall i | 0 <= i < |items| ensures ValidPriority(items[i].priority) {
        assert ParseActionItem(f.items[i]) == Success(items[i]);
      }
    }
  }

  /**
   * A report without a summary string is rejected; absent lists become empty and an
   * absent delivery flag becomes false.
   */
  lemma NotesRules(fields: map<string, Json>)
    ensures "summary" !in fields ==> ParseNotes(fields) == Failure(MissingField("summary"))
    ensures "summary" in fields && !fields["summary"].JStr? ==> ParseNotes(fields).Failure?
    ensures ParseNotes(fields).Success? ==>
      var n := ParseNotes(fields).value;
      && n.summary == fields["summary"].s
      && ("attendees" !in fields ==> n.attendees == [])
      && ("decisions" !in fields ==> n.decisions == [])
      && ("action_items" !in fields ==> n.actionItems == [])
      && ("blockers" !in fields ==> n.blockers == [])
      && ("follow_ups" !in fields ==> n.followUps == [])
      && ("slack_message_sent" !in fields ==> !n.slackMessageSent)
  {
  }

  lemma {:induction false} StringsRoundTrip(key: string, xs: seq<string>)
    ensures Strings(key, DumpStrings(xs).items) == Success(xs)
    decreases |xs|
  {
    var js := DumpStrings(xs).items;
    if xs != [] {
      assert js[1..] == DumpStrings(xs[1..]).items;
      StringsRoundTrip(key, xs[1..]);
      assert [xs[0]] + xs[1..] == xs;
    }
  }

  lemma {:induction false} ActionItemsRoundTrip(items: seq<ActionItem>)
    requires forall i :: 0 <= i < |items| ==> ValidPriority(items[i].priority)
    ensures ActionItems(DumpItems(items).items) == Success(items)
    decreases |items|
  {
    var js := DumpItems(items).items;
    if items != [] {
      assert js[1..] == DumpItems(items[1..]).items;
      assert ParseActionItem(js[0]) == Success(items[0]);
      ActionItemsRoundTrip(items[1..]);
      assert [items[0]] + items[1..] == items;
    }
  }

  /**
   * Re-validating a dumped report gives it back exactly when all its priorities are
   * admissible, so a report the parser produced always survives being stored and re-read.
   */
  lemma DumpRoundTrip(n: MeetingNotes)
    ensures ParseNotes(Dump(n).fields) == Success(n) <==> WellFormed(n)
  {
    var fields := Dump(n).fields;
    if WellFormed(n) {
      DumpParses(n);
    } else if ParseNotes(fields) == Success(n) {
      ParsedNotesWellFormed(fields);
    }
  }

  /** A report with admissible priorities is read back from its dump. */
  lemma DumpParses(n: MeetingNotes)
    requires WellFormed(n)
    ensures ParseNotes(Dump(n).fields) == Success(n)
  {
    var fields := Dump(n).fields;
    assert fields["summary"] == JStr(n.summary);
    assert fields["attendees"] == DumpStrings(n.attendees);
    assert fields["decisions"] == DumpStrings(n.decisions);
    assert fields["action_items"] == DumpItems(n.actionItems);
    assert fields["blockers"] == DumpStrings(n.blockers);
    assert fields["follow_ups"] == DumpStrings(n.followUps);
    assert fields["slack_message_sent"] == JBool(n.slackMessageSent);
    StringsRoundTrip("attendees", n.attendees);
    StringsRoundTrip("decisions", n.decisions);
    ActionItemsRoundTrip(n.actionItems);
    StringsRoundTrip("blockers", n.blockers);
    StringsRoundTrip("follow_ups", n.followUps);
  }
}
