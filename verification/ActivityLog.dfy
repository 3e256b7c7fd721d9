/**
 The revision history of a work item: the diff that an update writes to the activity log,
 and what a reader can reconstruct from the log.
 */
module ActivityLog {
  import opened Options

  /** A JavaScript value as a column or a request can hold it; numbers are whole and not negative. */
  datatype Value = Null | Text(text: string) | Number(n: nat) | Flag(b: bool)

  function Digit(d: nat): char
    requires d < 10
  {
    ['0', '1', '2', '3', '4', '5', '6', '7', '8', '9'][d]
  }

  function Decimal(n: nat): string {
    if n < 10 then [Digit(n)] else Decimal(n / 10) + [Digit(n % 10)]
  }

  /** String(v) */
  function Show(v: Value): string {
    match v
    case Null => "null"
    case Text(t) => t
    case Number(n) => Decimal(n)
    case Flag(b) => if b then "true" else "false"
  }

  /** The fields an update can set.  The last four are set but never logged. */
  datatype Field =
    | Title | Description | Notes | ReleaseNotes | AcceptanceCriteria | IsBlocked | BlockedReason
    | TeamId | IterationId | ReleaseId | StatusId | ScheduleState | Priority | AssigneeId
    | StoryPoints | EstimateHours | TodoHours | ActualHours
    | ReporterId | ParentId | Rank | CustomFields

  datatype Action =
    | ItemUpdated | FlowStateChanged | ScheduleStateChanged | PriorityChanged | Assigned | EstimateUpdated
    | TaskUpdated | TaskStateChanged | TaskEstimateUpdated | TaskTodoUpdated | TaskActualUpdated

  datatype Entry = Entry(action: Action, field: Field, old_: Value, new_: Value)

  /** A stored row, or a requested change set; a missing field is undefined. */
  type Fields = map<Field, Value>

  function Get(row: Fields, f: Field): Value {
    if f in row then row[f] else Null
  }

  predicate Rich(f: Field) {
    f in {Description, Notes, ReleaseNotes, AcceptanceCriteria, BlockedReason}
  }

  datatype Rule = Rule(field: Field, itemAction: Action, taskAction: Action)

  /** The calls of `add`, in order. */
  const RULES: seq<Rule> := [
    Rule(Title, ItemUpdated, TaskUpdated),
    Rule(Description, ItemUpdated, TaskUpdated),
    Rule(Notes, ItemUpdated, TaskUpdated),
    Rule(ReleaseNotes, ItemUpdated, TaskUpdated),
    Rule(AcceptanceCriteria, ItemUpdated, TaskUpdated),
    Rule(IsBlocked, ItemUpdated, TaskUpdated),
    Rule(BlockedReason, ItemUpdated, TaskUpdated),
    Rule(TeamId, ItemUpdated, TaskUpdated),
    Rule(IterationId, ItemUpdated, TaskUpdated),
    Rule(ReleaseId, ItemUpdated, TaskUpdated),
    Rule(StatusId, FlowStateChanged, TaskStateChanged),
    Rule(ScheduleState, ScheduleStateChanged, TaskStateChanged),
    Rule(Priority, PriorityChanged, TaskUpdated),
    Rule(AssigneeId, Assigned, TaskUpdated),
    Rule(StoryPoints, EstimateUpdated, TaskEstimateUpdated),
    Rule(EstimateHours, EstimateUpdated, TaskEstimateUpdated),
    Rule(TodoHours, ItemUpdated, TaskTodoUpdated),
    Rule(ActualHours, ItemUpdated, TaskActualUpdated)]

  /** The place of a logged field among the rules. */
  function Slot(f: Field): nat {
    match f
    case Title => 0 case Description => 1 case Notes => 2 case ReleaseNotes => 3 case AcceptanceCriteria => 4
    case IsBlocked => 5 case BlockedReason => 6 case TeamId => 7 case IterationId => 8 case ReleaseId => 9
    case StatusId => 10 case ScheduleState => 11 case Priority => 12 case AssigneeId => 13
    case StoryPoints => 14 case EstimateHours => 15 case TodoHours => 16 case ActualHours => 17
    case ReporterId => 18 case ParentId => 19 case Rank => 20 case CustomFields => 21
  }

  /** The fields that have a rule. */
  predicate Tracked(f: Field) {
    f !in {ReporterId, ParentId, Rank, CustomFields}
  }

  ghost predicate Names(rules: seq<Rule>, f: Field) {
    exists i :: 0 <= i < |rules| && rules[i].field == f
  }

  ghost predicate RulesInOrder(rules: seq<Rule>) {
    forall i, j :: 0 <= i < j < |rules| ==> Slot(rules[i].field) < Slot(rules[j].field)
  }

  lemma RulesAreInOrder()
    ensures RulesInOrder(RULES)
  {
    assert forall i :: 0 <= i < |RULES| ==> Slot(RULES[i].field) == i;
  }

  lemma RulesNameTracked(f: Field)
    ensures Names(RULES, f) <==> Tracked(f)
  {
    if Tracked(f) { assert RULES[Slot(f)].field == f; }
  }

  // ── The diff ────────────────────────────────────────────────────────────────

  predicate Changed(before: Value, after: Value) {
    !(before.Null? && after.Null?) && Show(before) != Show(after)
  }

  function MakeEntry(rule: Rule, before: Fields, next: Value, isTask: bool): Entry {
    Entry(if isTask then rule.taskAction else rule.itemAction,
          rule.field,
          if Rich(rule.field) then Null else Get(before, rule.field),
          if Rich(rule.field) then Null else next)
  }

  /** The update names the field, and to another value. */
  predicate Logged(before: Fields, input: Fields, f: Field) {
    f in input && Changed(Get(before, f), input[f])
  }

  /** What one call of `add` pushes. */
  function Pushed(rule: Rule, before: Fields, input: Fields, isTask: bool): seq<Entry> {
    if Logged(before, input, rule.field) then [MakeEntry(rule, before, input[rule.field], isTask)] else []
  }

  function DiffOver(rules: seq<Rule>, before: Fields, input: Fields, isTask: bool): seq<Entry> {
    if rules == [] then []
    else
      var n := |rules| - 1;
      DiffOver(rules[..n], before, input, isTask) + Pushed(rules[n], before, input, isTask)
  }

  function Diff(before: Fields, input: Fields, isTask: bool): seq<Entry> {
    DiffOver(RULES, before, input, isTask)
  }

  method DiffWorkItem(before: Fields, input: Fields, isTask: bool) returns (out: seq<Entry>)
    ensures out == Diff(before, input, isTask)
  {
    out := RunRules(RULES, before, input, isTask);
  }

  /** The calls of `add`, one for each rule. */
  method RunRules(rules: seq<Rule>, before: Fields, input: Fields, isTask: bool) returns (out: seq<Entry>)
    ensures out == DiffOver(rules, before, input, isTask)
  {
    out := [];
    for i := 0 to |rules|
      invariant out == DiffOver(rules[..i], before, input, isTask)
    {
      assert rules[..i + 1][..i] == rules[..i];
      out := Add(out, rules[i], before, input, isTask);
    }
    assert rules[..|rules|] == rules;
  }

  /** The closure `add`. */
  method Add(out: seq<Entry>, rule: Rule, before: Fields, input: Fields, isTask: bool) returns (next: seq<Entry>)
    ensures next == out + Pushed(rule, before, input, isTask)
  {
    if rule.field !in input { return out; }
    if !Changed(Get(before, rule.field), input[rule.field]) { return out; }
    return out + [MakeEntry(rule, before, input[rule.field], isTask)];
  }

  /** Every entry is the one a rule makes, of a field that the update changes. */
  lemma {:induction false} EntriesAreMade(rules: seq<Rule>, before: Fields, input: Fields, isTask: bool, e: Entry)
    requires e in DiffOver(rules, before, input, isTask)
    ensures Logged(before, input, e.field)
    ensures exists i :: 0 <= i < |rules| && rules[i].field == e.field && e == MakeEntry(rules[i], before, input[e.field], isTask)
  {
    var n := |rules| - 1;
    if e in Pushed(rules[n], before, input, isTask) {
      assert rules[n].field == e.field;
    } else {
      EntriesAreMade(rules[..n], before, input, isTask, e);
      var i :| 0 <= i < n && rules[..n][i].field == e.field && e == MakeEntry(rules[..n][i], before, input[e.field], isTask);
      assert rules[i] == rules[..n][i];
    }
  }

  lemma {:induction false} ChangesAreLogged(rules: seq<Rule>, before: Fields, input: Fields, isTask: bool, f: Field)
    requires Names(rules, f) && Logged(before, input, f)
    ensures exists e :: e in DiffOver(rules, before, input, isTask) && e.field == f
  {
    var n := |rules| - 1;
    var prev, last := DiffOver(rules[..n], before, input, isTask), Pushed(rules[n], before, input, isTask);
    if rules[n].field == f {
      assert last[0].field == f && last[0] in prev + last;
    } else {
      var i :| 0 <= i < |rules| && rules[i].field == f;
      assert rules[..n][i].field == f;
      ChangesAreLogged(rules[..n], before, input, isTask, f);
      var e :| e in prev && e.field == f;
      assert e in prev + last;
    }
  }

  /** In the order of the rules, so no field twice. */
  ghost predicate InRuleOrder(out: seq<Entry>) {
    forall i, j :: 0 <= i < j < |out| ==> Slot(out[i].field) < Slot(out[j].field)
  }

  lemma {:induction false} EntriesInOrder(rules: seq<Rule>, before: Fields, input: Fields, isTask: bool)
    requires RulesInOrder(rules)
    ensures InRuleOrder(DiffOver(rules, before, input, isTask))
  {
    if rules != [] {
      var n := |rules| - 1;
      var prev, out := DiffOver(rules[..n], before, input, isTask), DiffOver(rules, before, input, isTask);
      EntriesInOrder(rules[..n], before, input, isTask);
      forall i, j | 0 <= i < j < |out| ensures Slot(out[i].field) < Slot(out[j].field) {
        assert out[i] == prev[i];
        if j < |prev| {
          assert out[j] == prev[j];
        } else {
          EntriesAreMade(rules[..n], before, input, isTask, out[i]);
        }
      }
    }
  }

  /** The log has one entry for each of exactly the tracked fields that the update changes, in the rules' order. */
  lemma EntriesAreTheChanges(before: Fields, input: Fields, isTask: bool, f: Field)
    ensures (exists e :: e in Diff(before, input, isTask) && e.field == f) <==> Tracked(f) && Logged(before, input, f)
    ensures InRuleOrder(Diff(before, input, isTask))
  {
    RulesAreInOrder();
    RulesNameTracked(f);
    EntriesInOrder(RULES, before, input, isTask);
    if e :| e in Diff(before, input, isTask) && e.field == f { EntriesAreMade(RULES, before, input, isTask, e); }
    if Tracked(f) && Logged(before, input, f) { ChangesAreLogged(RULES, before, input, isTask, f); }
  }

  /** What the history of an item calls a change of the field. */
  function ItemAction(f: Field): Action {
    match f
    case StatusId => FlowStateChanged
    case ScheduleState => ScheduleStateChanged
    case Priority => PriorityChanged
    case AssigneeId => Assigned
    case StoryPoints => EstimateUpdated
    case EstimateHours => EstimateUpdated
    case _ => ItemUpdated
  }

  /** What the history of a task calls it. */
  function TaskAction(f: Field): Action {
    match f
    case StatusId => TaskStateChanged
    case ScheduleState => TaskStateChanged
    case StoryPoints => TaskEstimateUpdated
    case EstimateHours => TaskEstimateUpdated
    case TodoHours => TaskTodoUpdated
    case ActualHours => TaskActualUpdated
    case _ => TaskUpdated
  }

  lemma ItemActions(i: nat)
    requires i < |RULES|
    ensures RULES[i].itemAction == ItemAction(RULES[i].field)
  {
  }

  lemma TaskActions(i: nat)
    requires i < |RULES|
    ensures RULES[i].taskAction == TaskAction(RULES[i].field)
  {
  }

  /** The action of an entry follows from its field, and from whether the item is a task. */
  lemma ActionTellsTheField(before: Fields, input: Fields, isTask: bool, e: Entry)
    requires e in Diff(before, input, isTask)
    ensures e.action == if isTask then TaskAction(e.field) else ItemAction(e.field)
  {
    EntriesAreMade(RULES, before, input, isTask, e);
    var i :| 0 <= i < |RULES| && RULES[i].field == e.field && e == MakeEntry(RULES[i], before, input[e.field], isTask);
    ItemActions(i);
    TaskActions(i);
  }

  /** No entry carries the body of a rich-text field, and none is about an untracked field. */
  lemma NoRichBodyIsLogged(before: Fields, input: Fields, isTask: bool, e: Entry)
    requires e in Diff(before, input, isTask)
    ensures Tracked(e.field)
    ensures if e.field in {Description, Notes, ReleaseNotes, AcceptanceCriteria, BlockedReason}
            then e.old_ == Null && e.new_ == Null
            else e.old_ == Get(before, e.field) && e.field in input && e.new_ == input[e.field]
  {
    EntriesAreMade(RULES, before, input, isTask, e);
    RulesNameTracked(e.field);
  }

  // ── Replaying the log ───────────────────────────────────────────────────────

  predicate UuidField(f: Field) {
    f in {TeamId, IterationId, ReleaseId, StatusId, AssigneeId, ReporterId, ParentId}
  }

  function LowerChar(c: char): char {
    if 'A' <= c <= 'Z' then (c as int + 32) as char else c
  }

  function Lower(text: string): string {
    seq(|text|, i requires 0 <= i < |text| => LowerChar(text[i]))
  }

  /** What a column gives back for a value written to it: a uuid column prints its text in lower case. */
  function Store(f: Field, v: Value): Value {
    if UuidField(f) && v.Text? then Text(Lower(v.text)) else v
  }

  lemma StoreTwice(f: Field, v: Value)
    ensures Store(f, Store(f, v)) == Store(f, v)
  {
    if v.Text? { assert Lower(Lower(v.text)) == Lower(v.text); }
  }

  /** UPDATE … SET: the named fields are overwritten. */
  function Update(row: Fields, input: Fields): Fields {
    row + map f | f in input :: Store(f, input[f])
  }

  /** The field's value when the entries are applied, first to last, to `v`. */
  function Forward(v: Value, log: seq<Entry>, f: Field): Value {
    if log == [] then v
    else
      var n := |log| - 1;
      if log[n].field == f then log[n].new_ else Forward(v, log[..n], f)
  }

  /** The field's value when the entries are undone, last to first, from `v`. */
  function Backward(v: Value, log: seq<Entry>, f: Field): Value
    decreases |log|
  {
    if log == [] then v
    else
      var n := |log| - 1;
      Backward(if log[n].field == f then log[n].old_ else v, log[..n], f)
  }

  lemma {:induction false} ForwardConcat(v: Value, a: seq<Entry>, b: seq<Entry>, f: Field)
    ensures Forward(v, a + b, f) == Forward(Forward(v, a, f), b, f)
  {
    if b == [] {
      assert a + b == a;
    } else {
      assert (a + b)[..|a + b| - 1] == a + b[..|b| - 1];
      ForwardConcat(v, a, b[..|b| - 1], f);
    }
  }

  lemma {:induction false} BackwardConcat(v: Value, a: seq<Entry>, b: seq<Entry>, f: Field)
    ensures Backward(v, a + b, f) == Backward(Backward(v, b, f), a, f)
    decreases |b|
  {
    if b == [] {
      assert a + b == a;
    } else {
      var n := |b| - 1;
      assert (a + b)[..|a + b| - 1] == a + b[..n];
      BackwardConcat(if b[n].field == f then b[n].old_ else v, a, b[..n], f);
    }
  }

  lemma PushedReplays(rule: Rule, before: Fields, input: Fields, isTask: bool, f: Field, v: Value)
    requires !Rich(f)
    ensures var own := rule.field == f && Logged(before, input, f);
            && Forward(v, Pushed(rule, before, input, isTask), f) == (if own then input[f] else v)
            && Backward(v, Pushed(rule, before, input, isTask), f) == (if own then Get(before, f) else v)
  {
    var last := Pushed(rule, before, input, isTask);
    if last != [] { assert last[..0] == []; }
  }

  lemma NamesSnoc(rules: seq<Rule>, f: Field)
    requires rules != []
    ensures Names(rules, f) <==> Names(rules[..|rules| - 1], f) || rules[|rules| - 1].field == f
  {
    var n := |rules| - 1;
    if i :| 0 <= i < n && rules[i].field == f { assert rules[..n][i].field == f; }
    if i :| 0 <= i < n && rules[..n][i].field == f { assert rules[i].field == f; }
  }

  /** Applied forward, the diff sets the field to its new value if it is logged; backward, to its old one. */
  lemma {:induction false} DiffReplays(rules: seq<Rule>, before: Fields, input: Fields, isTask: bool, f: Field,
                                       v: Value)
    requires !Rich(f)
    ensures var logged := Names(rules, f) && Logged(before, input, f);
            && Forward(v, DiffOver(rules, before, input, isTask), f) == (if logged then input[f] else v)
            && Backward(v, DiffOver(rules, before, input, isTask), f) == (if logged then Get(before, f) else v)
  {
    if rules != [] {
      var n := |rules| - 1;
      var prev, last := DiffOver(rules[..n], before, input, isTask), Pushed(rules[n], before, input, isTask);
      ForwardConcat(v, prev, last, f);
      BackwardConcat(v, prev, last, f);
      NamesSnoc(rules, f);
      PushedReplays(rules[n], before, input, isTask, f, v);
      PushedReplays(rules[n], before, input, isTask, f, Forward(v, prev, f));
      DiffReplays(rules[..n], before, input, isTask, f, v);
      DiffReplays(rules[..n], before, input, isTask, f, Backward(v, last, f));
    }
  }

  /** The update changes the stored value, but old and requested value have the same text, so nothing is logged. */
  predicate Silent(before: Fields, input: Fields, f: Field) {
    f in input && !Changed(Get(before, f), input[f]) && Store(f, input[f]) != Get(before, f)
  }

  /** The update is logged with the requested value, but the column stores another spelling of it. */
  predicate Respelled(before: Fields, input: Fields, f: Field) {
    Logged(before, input, f) && Store(f, input[f]) != input[f]
  }

  /** One update: what makes the replay exact, forward and backward. */
  lemma UpdateReplays(before: Fields, input: Fields, isTask: bool, f: Field)
    requires Tracked(f) && !Rich(f)
    ensures var log, after := Diff(before, input, isTask), Update(before, input);
            && (Forward(Get(before, f), log, f) == Get(after, f) <==> !Silent(before, input, f) && !Respelled(before, input, f))
            && (Backward(Get(after, f), log, f) == Get(before, f) <==> !Silent(before, input, f))
  {
    var after := Update(before, input);
    RulesNameTracked(f);
    DiffReplays(RULES, before, input, isTask, f, Get(before, f));
    DiffReplays(RULES, before, input, isTask, f, Get(after, f));
  }

  /** The row after a sequence of updates. */
  function Edited(row: Fields, inputs: seq<Fields>): Fields {
    if inputs == [] then row
    else
      var n := |inputs| - 1;
      Update(Edited(row, inputs[..n]), inputs[n])
  }

  /** The log a sequence of updates leaves behind. */
  function History(row: Fields, inputs: seq<Fields>, isTask: bool): seq<Entry> {
    if inputs == [] then []
    else
      var n := |inputs| - 1;
      History(row, inputs[..n], isTask) + Diff(Edited(row, inputs[..n]), inputs[n], isTask)
  }

  // ── Reading the log forward ─────────────────────────────────────────────────

  /** After the sequence, and after every earlier update, the log read forward tells the field's value. */
  ghost predicate TellsForward(row: Fields, inputs: seq<Fields>, isTask: bool, f: Field) {
    && Forward(Get(row, f), History(row, inputs, isTask), f) == Get(Edited(row, inputs), f)
    && (inputs != [] ==> TellsForward(row, inputs[..|inputs| - 1], isTask, f))
  }

  /** No update of the sequence changed the field silently or stored it in another spelling. */
  ghost predicate Plain(row: Fields, inputs: seq<Fields>, f: Field) {
    inputs != [] ==>
      var n := |inputs| - 1;
      var now := Edited(row, inputs[..n]);
      Plain(row, inputs[..n], f) && !Silent(now, inputs[n], f) && !Respelled(now, inputs[n], f)
  }

  /**
   Folding the log forward over the initial row gives the current value of a tracked field
   that is not rich text, at every moment of the history, exactly if no update was silent
   about it or stored another spelling than it requested.
   */
  lemma {:induction false} LogTellsForward(row: Fields, inputs: seq<Fields>, isTask: bool, f: Field)
    requires Tracked(f) && !Rich(f)
    ensures TellsForward(row, inputs, isTask, f) <==> Plain(row, inputs, f)
  {
    if inputs != [] {
      var n := |inputs| - 1;
      var mid := Edited(row, inputs[..n]);
      LogTellsForward(row, inputs[..n], isTask, f);
      ForwardConcat(Get(row, f), History(row, inputs[..n], isTask), Diff(mid, inputs[n], isTask), f);
      UpdateReplays(mid, inputs[n], isTask, f);
    }
  }

  // ── Reading the log backward ────────────────────────────────────────────────

  /** After the sequence, and after every earlier update, the log read backward tells the initial value. */
  ghost predicate TellsBackward(row: Fields, inputs: seq<Fields>, isTask: bool, f: Field) {
    && Backward(Get(Edited(row, inputs), f), History(row, inputs, isTask), f) == Get(row, f)
    && (inputs != [] ==> TellsBackward(row, inputs[..|inputs| - 1], isTask, f))
  }

  ghost predicate Mentions(log: seq<Entry>, f: Field) {
    exists e :: e in log && e.field == f
  }

  lemma MentionsSnoc(log: seq<Entry>, f: Field)
    requires log != []
    ensures Mentions(log, f) <==> Mentions(log[..|log| - 1], f) || log[|log| - 1].field == f
  {
    var n := |log| - 1;
    if e :| e in log && e.field == f {
      assert e in log[..n] || e == log[n];
    }
    assert log[n] in log && forall e :: e in log[..n] ==> e in log;
  }

  /** The oldest entry of a field decides what undoing the log makes of it. */
  lemma {:induction false} OldestEntryDecides(log: seq<Entry>, f: Field, v: Value, w: Value)
    ensures Mentions(log, f) ==> Backward(v, log, f) == Backward(w, log, f)
    ensures !Mentions(log, f) ==> Backward(v, log, f) == v && Backward(w, log, f) == w
    decreases |log|
  {
    if log != [] {
      MentionsSnoc(log, f);
      OldestEntryDecides(log[..|log| - 1], f, v, w);
    }
  }

  /** A silent update of the field comes only after one that was logged. */
  ghost predicate LoggedFirst(row: Fields, inputs: seq<Fields>, isTask: bool, f: Field) {
    inputs != [] ==>
      var n := |inputs| - 1;
      && LoggedFirst(row, inputs[..n], isTask, f)
      && (Silent(Edited(row, inputs[..n]), inputs[n], f) ==> Mentions(History(row, inputs[..n], isTask), f))
  }

  /**
   Folding the log backward from the current row restores the initial value, at every moment
   of the history, exactly if the field was not changed silently before its first entry.
   How values are spelled does not matter in this direction.
   */
  lemma {:induction false} LogTellsBackward(row: Fields, inputs: seq<Fields>, isTask: bool, f: Field)
    requires Tracked(f) && !Rich(f)
    ensures TellsBackward(row, inputs, isTask, f) <==> LoggedFirst(row, inputs, isTask, f)
  {
    if inputs != [] {
      var n := |inputs| - 1;
      var mid := Edited(row, inputs[..n]);
      var log, last := History(row, inputs[..n], isTask), Diff(mid, inputs[n], isTask);
      var after := Get(Update(mid, inputs[n]), f);
      LogTellsBackward(row, inputs[..n], isTask, f);
      BackwardConcat(after, log, last, f);
      UpdateReplays(mid, inputs[n], isTask, f);
      OldestEntryDecides(log, f, Backward(after, last, f), Get(mid, f));
    }
  }

  // ── Rows and requests of the declared types ─────────────────────────────────

  predicate IsDigit(c: char) {
    '0' <= c <= '9'
  }

  /** Hexadecimal digits in either case, grouped 8-4-4-4-12: at least what the request schema accepts as a uuid. */
  predicate IsUuid(text: string) {
    && |text| == 36
    && forall i | 0 <= i < 36 ::
         if i == 8 || i == 13 || i == 18 || i == 23 then text[i] == '-'
         else IsDigit(text[i]) || 'a' <= text[i] <= 'f' || 'A' <= text[i] <= 'F'
  }

  /** What toFixed(2) makes of a number of hours, and numeric(8, 2) gives back. */
  predicate TwoDecimals(text: string) {
    && |text| >= 4 && (|text| == 4 || text[0] != '0')
    && forall i | 0 <= i < |text| :: if i == |text| - 3 then text[i] == '.' else IsDigit(text[i])
  }

  /** What the request schema lets through for the field. */
  predicate Typed(f: Field, v: Value) {
    if f == CustomFields then true
    else if f == IsBlocked then v.Flag?
    else if f == StoryPoints then v.Null? || v.Number?
    else if v.Null? then f !in {Title, StatusId, ScheduleState, Priority, Rank}
    else
      && v.Text?
      && (UuidField(f) ==> IsUuid(v.text))
      && (f in {EstimateHours, TodoHours, ActualHours} ==> TwoDecimals(v.text))
  }

  lemma {:induction false} DecimalIsInjective(m: nat, n: nat)
    requires Decimal(m) == Decimal(n)
    ensures m == n
  {
    DecimalLast(m);
    DecimalLast(n);
    if m >= 10 && n >= 10 {
      DecimalIsInjective(m / 10, n / 10);
    }
  }

  /** The last digit, and what stands before it. */
  lemma DecimalLast(n: nat)
    ensures Decimal(n) != [] && Decimal(n)[|Decimal(n)| - 1] == Digit(n % 10)
    ensures n >= 10 ==> |Decimal(n)| > 1 && Decimal(n)[..|Decimal(n)| - 1] == Decimal(n / 10)
    ensures n < 10 ==> |Decimal(n)| == 1
  {
    if n >= 10 { DecimalLast(n / 10); }
  }

  lemma DecimalHasDigits(n: nat)
    ensures Decimal(n)[0] in "0123456789"
  {
    if n >= 10 { DecimalHasDigits(n / 10); }
  }

  /** An optional field's text is never that of null. */
  lemma TypedTextIsNotNull(f: Field, v: Value)
    requires Typed(f, v) && v.Text? && Typed(f, Null) && Tracked(f) && !Rich(f)
    ensures v.text != "null"
  {
    if !UuidField(f) {
      assert TwoDecimals(v.text) && v.text[|v.text| - 3] == '.';
    }
  }

  lemma TypedValuesAreTold(f: Field, a: Value, b: Value)
    requires Typed(f, a) && Typed(f, b) && a != b && Tracked(f) && !Rich(f)
    ensures Changed(a, b)
  {
    if a.Text? && b.Null? { TypedTextIsNotNull(f, a); }
    if a.Null? && b.Text? { TypedTextIsNotNull(f, b); }
    if a.Number? { DecimalHasDigits(a.n); }
    if b.Number? { DecimalHasDigits(b.n); }
    if a.Number? && b.Number? && Decimal(a.n) == Decimal(b.n) { DecimalIsInjective(a.n, b.n); }
  }

  ghost predicate TypedFields(row: Fields) {
    forall f :: f in row ==> Typed(f, row[f])
  }

  /** A row as the table gives it back. */
  ghost predicate StoredRow(row: Fields) {
    TypedFields(row) && forall f :: f in row ==> Store(f, row[f]) == row[f]
  }

  lemma StoreKeepsType(f: Field, v: Value)
    requires Typed(f, v)
    ensures Typed(f, Store(f, v)) && Store(f, Store(f, v)) == Store(f, v)
  {
    StoreTwice(f, v);
  }

  lemma UpdateKeepsStored(row: Fields, input: Fields)
    requires StoredRow(row) && TypedFields(input)
    ensures StoredRow(Update(row, input)) && row.Keys <= Update(row, input).Keys
  {
    var after := Update(row, input);
    forall f | f in after ensures Typed(f, after[f]) && Store(f, after[f]) == after[f] {
      if f in input { StoreKeepsType(f, input[f]); }
    }
  }

  /** An update of the declared types is never silent, and respelled exactly if it spells a uuid otherwise. */
  lemma TypedUpdate(row: Fields, input: Fields, f: Field)
    requires StoredRow(row) && TypedFields(input) && Tracked(f) && !Rich(f) && f in row
    ensures !Silent(row, input, f)
    ensures Respelled(row, input, f) <==> f in input && Store(f, input[f]) != input[f]
    ensures !Logged(row, input, f) ==> Update(row, input)[f] == row[f]
  {
    if f in input && input[f] != row[f] {
      TypedValuesAreTold(f, row[f], input[f]);
    }
  }

  lemma {:induction false} EditedIsStored(row: Fields, inputs: seq<Fields>)
    requires StoredRow(row) && forall k :: 0 <= k < |inputs| ==> TypedFields(inputs[k])
    ensures StoredRow(Edited(row, inputs)) && row.Keys <= Edited(row, inputs).Keys
  {
    if inputs != [] {
      var n := |inputs| - 1;
      EditedIsStored(row, inputs[..n]);
      UpdateKeepsStored(Edited(row, inputs[..n]), inputs[n]);
    }
  }

  /** Every request spelled the field as its column stores it. */
  ghost predicate Canonical(inputs: seq<Fields>, f: Field) {
    forall k :: 0 <= k < |inputs| && f in inputs[k] ==> Store(f, inputs[k][f]) == inputs[k][f]
  }

  lemma {:induction false} TypedIsPlain(row: Fields, inputs: seq<Fields>, f: Field)
    requires Tracked(f) && !Rich(f) && f in row
    requires StoredRow(row) && forall k :: 0 <= k < |inputs| ==> TypedFields(inputs[k])
    ensures Plain(row, inputs, f) <==> Canonical(inputs, f)
  {
    if inputs != [] {
      var n := |inputs| - 1;
      TypedIsPlain(row, inputs[..n], f);
      EditedIsStored(row, inputs[..n]);
      TypedUpdate(Edited(row, inputs[..n]), inputs[n], f);
      CanonicalSnoc(inputs, f);
    }
  }

  lemma CanonicalSnoc(inputs: seq<Fields>, f: Field)
    requires inputs != []
    ensures var n := |inputs| - 1;
            Canonical(inputs, f)
            <==> Canonical(inputs[..n], f) && (f in inputs[n] ==> Store(f, inputs[n][f]) == inputs[n][f])
  {
    var n := |inputs| - 1;
    if Canonical(inputs, f) {
      forall k | 0 <= k < n && f in inputs[..n][k] ensures Store(f, inputs[..n][k][f]) == inputs[..n][k][f] {
        assert inputs[k] == inputs[..n][k];
      }
    }
    if Canonical(inputs[..n], f) && (f in inputs[n] ==> Store(f, inputs[n][f]) == inputs[n][f]) {
      forall k | 0 <= k <= n && f in inputs[k] ensures Store(f, inputs[k][f]) == inputs[k][f] {
        if k < n { assert inputs[k] == inputs[..n][k]; }
      }
    }
  }

  lemma {:induction false} TypedIsLoggedFirst(row: Fields, inputs: seq<Fields>, isTask: bool, f: Field)
    requires Tracked(f) && !Rich(f) && f in row
    requires StoredRow(row) && forall k :: 0 <= k < |inputs| ==> TypedFields(inputs[k])
    ensures LoggedFirst(row, inputs, isTask, f)
  {
    if inputs != [] {
      var n := |inputs| - 1;
      TypedIsLoggedFirst(row, inputs[..n], isTask, f);
      EditedIsStored(row, inputs[..n]);
      TypedUpdate(Edited(row, inputs[..n]), inputs[n], f);
    }
  }

  /** Backward the log gives the initial value, forward the current one up to its spelling. */
  ghost predicate Told(initial: Fields, row: Fields, log: seq<Entry>, f: Field) {
    && Store(f, Forward(Get(initial, f), log, f)) == Get(row, f)
    && Backward(Get(row, f), log, f) == Get(initial, f)
  }

  lemma StaysTold(initial: Fields, row: Fields, log: seq<Entry>, input: Fields, isTask: bool, f: Field)
    requires StoredRow(row) && TypedFields(input) && f in row && Tracked(f) && !Rich(f) && Told(initial, row, log, f)
    ensures Told(initial, Update(row, input), log + Diff(row, input, isTask), f)
  {
    var last := Diff(row, input, isTask);
    TypedUpdate(row, input, f);
    UpdateReplays(row, input, isTask, f);
    ForwardConcat(Get(initial, f), log, last, f);
    BackwardConcat(Get(Update(row, input), f), log, last, f);
    RulesNameTracked(f);
    DiffReplays(RULES, row, input, isTask, f, Forward(Get(initial, f), log, f));
  }

  lemma {:induction false} TypedIsTold(row: Fields, inputs: seq<Fields>, isTask: bool, f: Field)
    requires Tracked(f) && !Rich(f) && f in row
    requires StoredRow(row) && forall k :: 0 <= k < |inputs| ==> TypedFields(inputs[k])
    ensures Told(row, Edited(row, inputs), History(row, inputs, isTask), f)
  {
    if inputs == [] {
      assert Told(row, row, [], f);
    } else {
      var n := |inputs| - 1;
      var now, log := Edited(row, inputs[..n]), History(row, inputs[..n], isTask);
      TypedIsTold(row, inputs[..n], isTask, f);
      EditedIsStored(row, inputs[..n]);
      StaysTold(row, now, log, inputs[n], isTask, f);
      assert Edited(row, inputs) == Update(now, inputs[n]);
      assert History(row, inputs, isTask) == log + Diff(now, inputs[n], isTask);
    }
  }

  /**
   For rows and requests of the declared types: read backward, the log always restores the
   initial value; read forward, it gives the current value up to the spelling of uuids, and
   exactly, at every moment, if and only if every request spelled the field as it is stored.
   */
  lemma TypedLogTells(row: Fields, inputs: seq<Fields>, isTask: bool, f: Field)
    requires Tracked(f) && !Rich(f) && f in row
    requires StoredRow(row) && forall k :: 0 <= k < |inputs| ==> TypedFields(inputs[k])
    ensures TellsBackward(row, inputs, isTask, f)
    ensures Store(f, Forward(Get(row, f), History(row, inputs, isTask), f)) == Get(Edited(row, inputs), f)
    ensures TellsForward(row, inputs, isTask, f) <==> Canonical(inputs, f)
    ensures !UuidField(f) ==> TellsForward(row, inputs, isTask, f)
  {
    TypedIsPlain(row, inputs, f);
    TypedIsLoggedFirst(row, inputs, isTask, f);
    TypedIsTold(row, inputs, isTask, f);
    LogTellsForward(row, inputs, isTask, f);
    LogTellsBackward(row, inputs, isTask, f);
  }

  /**
   A uuid requested in upper case on an empty field: the log's last value is not the stored
   one; and sending it again changes nothing in the row and yet is logged as a change.
   */
  lemma UpperCaseUuidMisleadsTheLog(text: string, isTask: bool)
    requires IsUuid(text) && Lower(text) != text
    ensures var row, input := map[TeamId := Null], map[TeamId := Text(text)];
            && StoredRow(row) && TypedFields(input) && !Silent(row, input, TeamId)
            && Forward(Null, Diff(row, input, isTask), TeamId) == Text(text)
            && Update(row, input)[TeamId] == Text(Lower(text)) != Text(text)
            && Update(Update(row, input), input) == Update(row, input)
            && Logged(Update(row, input), input, TeamId)
  {
    var row, input := map[TeamId := Null], map[TeamId := Text(text)];
    TypedTextIsNotNull(TeamId, Text(text));
    RulesNameTracked(TeamId);
    DiffReplays(RULES, row, input, isTask, TeamId, Null);
  }

  const SHOUTED := "A0EEBC99-9C0B-4EF8-BB6D-6BB9BD380A11"

  lemma ShoutedIsUuid()
    ensures IsUuid(SHOUTED) && Lower(SHOUTED) != SHOUTED
  {
    assert SHOUTED[0] == 'A' && Lower(SHOUTED)[0] == 'a';
  }

  /** Outside the declared types a change can escape the log: null and the text "null" look the same. */
  lemma NullTextIsSilent(isTask: bool)
    ensures Silent(map[Title := Null], map[Title := Text("null")], Title)
    ensures !TellsForward(map[Title := Null], [map[Title := Text("null")]], isTask, Title)
    ensures !TellsBackward(map[Title := Null], [map[Title := Text("null")]], isTask, Title)
  {
    var row, input := map[Title := Null], map[Title := Text("null")];
    assert [input][..0] == [] && Edited(row, []) == row;
    assert Silent(Edited(row, [input][..0]), [input][0], Title);
    LogTellsForward(row, [input], isTask, Title);
    LogTellsBackward(row, [input], isTask, Title);
  }

  // ── The service ─────────────────────────────────────────────────────────────

  /** A uuid column gives back the text it was given, with every capital letter in lower case; null stays null. */
  ghost predicate PrintsAs(requested: Value, stored: Value) {
    if !requested.Text? then stored == requested
    else
      && stored.Text? && |stored.text| == |requested.text|
      && forall i :: 0 <= i < |stored.text| ==>
           var c, d := requested.text[i], stored.text[i];
           !('A' <= d <= 'Z') && (d == c || ('A' <= c <= 'Z' && d as int - c as int == 32))
  }

  /** Every field that the update names has the requested value, logged or not; the others keep theirs. */
  ghost predicate Overwritten(before: Fields, after: Fields, input: Fields) {
    forall f: Field ::
      && (f in after <==> f in before || f in input)
      && (f in input ==>
            if f in {TeamId, IterationId, ReleaseId, StatusId, AssigneeId, ReporterId, ParentId}
            then PrintsAs(input[f], after[f]) else after[f] == input[f])
      && (f in before && f !in input ==> after[f] == before[f])
  }

  lemma UpdateOverwrites(row: Fields, input: Fields)
    ensures Overwritten(row, Update(row, input), input)
  {
    var after := Update(row, input);
    forall f | f in input ensures if UuidField(f) then PrintsAs(input[f], after[f]) else after[f] == input[f] {
      assert after[f] == Store(f, input[f]);
    }
  }

  class WorkItem {
    const isTask: bool
    var row: Fields
    var log: seq<Entry>
    ghost const initial: Fields

    /**
     Read backward, the log restores the initial value of every tracked field that is not rich
     text; read forward, it gives the current value up to the spelling of uuids.
     */
    ghost predicate Valid()
      reads this
    {
      && StoredRow(row)
      && (forall f :: f in row)
      && forall f :: Tracked(f) && !Rich(f) ==> Told(initial, row, log, f)
    }

    constructor (row: Fields, isTask: bool)
      requires StoredRow(row) && forall f :: f in row
      ensures Valid() && this.row == row && log == [] && this.isTask == isTask
    {
      this.row, this.isTask, this.log, this.initial := row, isTask, [], row;
    }

    /**
     `updateWorkItem`: the row and the entries are written in one transaction, which does
     not happen when a check refuses the update and leaves nothing behind when it fails.
     */
    method UpdateWorkItem(input: Fields, refused: bool, txFails: bool) returns (ok: bool)
      requires Valid() && TypedFields(input)
      modifies this
      ensures Valid()
      ensures ok == (!refused && !txFails)
      ensures row == if ok then Update(old(row), input) else old(row)
      ensures ok ==> Overwritten(old(row), row, input)
      ensures !ok ==> row == old(row) && log == old(log)
      ensures log == if ok then old(log) + Diff(old(row), input, isTask) else old(log)
    {
      if refused { return false; }
      var entries := DiffWorkItem(row, input, isTask);
      if txFails { return false; }
      UpdateKeepsStored(row, input);
      UpdateOverwrites(row, input);
      forall f | Tracked(f) && !Rich(f) ensures Told(initial, Update(row, input), log + entries, f) {
        StaysTold(initial, row, log, input, isTask, f);
      }
      row := Update(row, input);
      log := log + entries;
      return true;
    }
  }
}
