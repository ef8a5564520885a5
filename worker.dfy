/** The worker inside the container: it reads its instructions and memory from the
    workspace, assembles the prompt, folds the agent's reply into a response text,
    extracts scheduled tasks from it, and leaves them in a sidecar file for the host. */
module Worker {
  import opened Prelude
  import opened Strings

  // ---------------------------------------------------------------------------
  // Python operations on decoded values

  /** `j[key]` for a string key. */
  function Subscript(j: Json, key: string): (r: Result<Json>)
    ensures r.Success? <==> j.JObject? && Get(j.fields, key).Some?
  {
    match j
    case JObject(fields) =>
      if Get(fields, key).Some? then Success(Get(fields, key).value) else Failure(KeyError(key))
    case JArray(_) => Failure(TypeError("list indices must be integers or slices, not str"))
    case JStr(_) => Failure(TypeError("string indices must be integers, not 'str'"))
    case _ => Failure(TypeError("'" + TypeName(j) + "' object is not subscriptable"))
  }

  function Reverse<T>(s: seq<T>): (r: seq<T>)
    ensures |r| == |s| && forall k :: 0 <= k < |s| ==> r[k] == s[|s| - 1 - k]
  {
    if s == [] then [] else Reverse(s[1..]) + [s[0]]
  }

  /** The keys of a dict, as the strings iteration yields. */
  function Keys(fields: seq<(string, Json)>): seq<Json>
  {
    if fields == [] then [] else [JStr(fields[0].0)] + Keys(fields[1..])
  }

  /** The one-character strings iteration over a string yields. */
  function Characters(s: string): seq<Json>
  {
    if s == [] then [] else [JStr([s[0]])] + Characters(s[1..])
  }

  /** What `reversed(history)` yields for a truthy history: a list backwards, a dict's keys
      backwards, a string's characters backwards; other values are not reversible. */
  function Reversed(history: Json): Result<seq<Json>>
  {
    match history
    case JArray(items) => Success(Reverse(items))
    case JObject(fields) => Success(Reverse(Keys(fields)))
    case JStr(s) => Success(Reverse(Characters(s)))
    case _ => Failure(TypeError("'" + TypeName(history) + "' object is not reversible"))
  }

  // ---------------------------------------------------------------------------
  // Prompt assembly

  /** The lines one history entry contributes: `msg['message']` after `  User: `, then
      the first 200 characters of a truthy `response` after `  Assistant: `. */
  function MessageLines(msg: Json): Result<seq<string>>
  {
    match Subscript(msg, "message")
    case Failure(e) => Failure(e)
    case Success(m) =>
      var userLine := "  User: " + Display(m);
      var response := Get(msg.fields, "response");
      if response.Some? && Truthy(response.value) then
        match SliceTo(response.value, 200)
        case Failure(e) => Failure(e)
        case Success(t) => Success([userLine, "  Assistant: " + Display(t)])
      else Success([userLine])
  }

  /** The lines of the entries in iteration order; the first entry that raises stops it. */
  function HistoryLines(msgs: seq<Json>): Result<seq<string>>
  {
    if msgs == [] then Success([])
    else
      match HistoryLines(msgs[..|msgs| - 1])
      case Failure(e) => Failure(e)
      case Success(before) =>
        match MessageLines(msgs[|msgs| - 1])
        case Failure(e) => Failure(e)
        case Success(lines) => Success(before + lines)
  }

  /** The history block: nothing for a falsy history, otherwise a header line, the entries
      oldest first (the stored order is newest first) and an empty closing line. */
  function HistoryBlock(history: Json): Result<seq<string>>
  {
    if !Truthy(history) then Success([])
    else
      match Reversed(history)
      case Failure(e) => Failure(e)
      case Success(msgs) =>
        match HistoryLines(msgs)
        case Failure(e) => Failure(e)
        case Success(lines) => Success(["Recent conversation:"] + lines + [""])
  }

  /** The `[User: u]` line, present unless the user is `"unknown"`. */
  function UserLine(user: Json): seq<string>
  {
    if user != JStr("unknown") then ["[User: " + Display(user) + "]"] else []
  }

  /** `f"{k}: {v}"` for every item of the context dict, in its order. */
  function ContextLines(fields: seq<(string, Json)>): (r: seq<string>)
    ensures |r| == |fields|
  {
    if fields == [] then [] else [fields[0].0 + ": " + Display(fields[0].1)] + ContextLines(fields[1..])
  }

  /** The context block: nothing for a falsy context, and `.items()` needs a dict. */
  function ContextBlock(context: Json): Result<seq<string>>
  {
    if !Truthy(context) then Success([])
    else
      match context
      case JObject(fields) => Success(["\nContext:\n" + Join(ContextLines(fields), "\n")])
      case _ => Failure(AttributeError("'" + TypeName(context) + "' object has no attribute 'items'"))
  }

  /** The list `_enhance_prompt` joins: user line, history block, prompt, context block.
      The history is rendered first, then the context; `join` needs the prompt to be a
      string. */
  function PromptParts(prompt: Json, context: Json, user: Json, history: Json): Result<seq<string>>
  {
    match HistoryBlock(history)
    case Failure(e) => Failure(e)
    case Success(hist) => PartsAfterHistory(UserLine(user) + hist, prompt, context)
  }

  function PartsAfterHistory(head: seq<string>, prompt: Json, context: Json): Result<seq<string>>
  {
    match ContextBlock(context)
    case Failure(e) => Failure(e)
    case Success(ctx) =>
      if prompt.JStr? then Success(head + [prompt.s] + ctx)
      else Failure(JoinTypeError(|head|, prompt))
  }

  /** The TypeError `str.join` raises for the non-string item `item` at `index`. */
  function JoinTypeError(index: nat, item: Json): Exception
  {
    TypeError("sequence item " + IntToString(index) + ": expected str instance, " + TypeName(item) + " found")
  }

  function EnhancedPrompt(prompt: Json, context: Json, user: Json, history: Json): Result<string>
  {
    match PromptParts(prompt, context, user, history)
    case Failure(e) => Failure(e)
    case Success(parts) => Success(Join(parts, "\n"))
  }

  /** `_enhance_prompt`: the parts joined with newlines. */
  method EnhancePrompt(prompt: Json, context: Json, user: Json, history: Json) returns (r: Result<string>)
    ensures r == EnhancedPrompt(prompt, context, user, history)
  {
    var parts := AssembleParts(prompt, context, user, history);
    if parts.Failure? {
      return Failure(parts.error);
    }
    r := Success(Join(parts.value, "\n"));
  }

  /** The parts of `_enhance_prompt`, appended one by one. */
  method AssembleParts(prompt: Json, context: Json, user: Json, history: Json) returns (r: Result<seq<string>>)
    ensures r == PromptParts(prompt, context, user, history)
  {
    var parts: seq<string> := UserLine(user);
    var hist := RenderHistory(history);
    if hist.Failure? {
      return Failure(hist.error);
    }
    parts := parts + hist.value;
    assert PromptParts(prompt, context, user, history) == PartsAfterHistory(parts, prompt, context);
    var ctx := ContextBlock(context);
    if ctx.Failure? {
      return Failure(ctx.error);
    }
    if !prompt.JStr? {
      return Failure(JoinTypeError(|parts|, prompt));
    }
    r := Success(parts + [prompt.s] + ctx.value);
  }

  /** The history part of `_enhance_prompt`: header, entries, closing line. */
  method RenderHistory(history: Json) returns (r: Result<seq<string>>)
    ensures r == HistoryBlock(history)
  {
    if !Truthy(history) {
      return Success([]);
    }
    var reversed := Reversed(history);
    if reversed.Failure? {
      return Failure(reversed.error);
    }
    var lines := RenderEntries(reversed.value);
    if lines.Failure? {
      return Failure(lines.error);
    }
    r := Success(["Recent conversation:"] + lines.value + [""]);
  }

  /** The loop `for msg in reversed(history)`: the lines of each entry appended in turn. */
  method RenderEntries(msgs: seq<Json>) returns (r: Result<seq<string>>)
    ensures r == HistoryLines(msgs)
  {
    var lines: seq<string> := [];
    var j := 0;
    while j < |msgs|
      invariant 0 <= j <= |msgs|
      invariant HistoryLines(msgs[..j]) == Success(lines)
    {
      var entry := MessageLines(msgs[j]);
      HistoryLinesStep(msgs, j);
      if entry.Failure? {
        HistoryLinesStop(msgs, j + 1);
        assert msgs[..|msgs|] == msgs;
        return Failure(entry.error);
      }
      lines := lines + entry.value;
      j := j + 1;
    }
    assert msgs[..j] == msgs;
    r := Success(lines);
  }

  lemma HistoryLinesStep(msgs: seq<Json>, j: nat)
    requires j < |msgs| && HistoryLines(msgs[..j]).Success?
    ensures HistoryLines(msgs[..j + 1]) ==
      match MessageLines(msgs[j])
      case Failure(e) => Failure(e)
      case Success(lines) => Success(HistoryLines(msgs[..j]).value + lines)
  {
    assert msgs[..j + 1][..j] == msgs[..j];
  }

  /** Once a prefix of the entries raises, so does every longer prefix, with the same error. */
  lemma {:induction false} HistoryLinesStop(msgs: seq<Json>, n: nat)
    requires 0 < n <= |msgs| && HistoryLines(msgs[..n]).Failure?
    ensures HistoryLines(msgs).Failure? && HistoryLines(msgs).error == HistoryLines(msgs[..n]).error
    decreases |msgs| - n
  {
    if n < |msgs| {
      assert msgs[..n + 1][..n] == msgs[..n];
      HistoryLinesStop(msgs, n + 1);
    } else {
      assert msgs[..n] == msgs;
    }
  }

  /** A history entry with a string message and no truthy response gives one line. */
  predicate PlainEntry(msg: Json)
  {
    msg.JObject? && Get(msg.fields, "message").Some?
    && !(Get(msg.fields, "response").Some? && Truthy(Get(msg.fields, "response").value))
  }

  /** The displayed `message` of an entry ("" where there is none). */
  function MessageOf(msg: Json): string
  {
    if msg.JObject? && Get(msg.fields, "message").Some? then Display(Get(msg.fields, "message").value) else ""
  }

  /** An entry with a string response shows its first 200 characters after the message. */
  lemma EntryWithResponse(msg: Json, response: string)
    requires msg.JObject? && Get(msg.fields, "message").Some?
    requires Get(msg.fields, "response") == Some(JStr(response)) && response != ""
    ensures MessageLines(msg) == Success(["  User: " + MessageOf(msg), "  Assistant: " + Take(response, 200)])
  {
    var m := Get(msg.fields, "message").value;
    assert Subscript(msg, "message") == Success(m);
    assert Truthy(JStr(response));
    assert SliceTo(JStr(response), 200) == Success(JStr(Take(response, 200)));
    assert Display(JStr(Take(response, 200))) == Take(response, 200);
  }

  lemma PlainEntryLine(msg: Json)
    requires PlainEntry(msg)
    ensures MessageLines(msg) == Success(["  User: " + MessageOf(msg)])
  {
    assert Subscript(msg, "message") == Success(Get(msg.fields, "message").value);
  }

  lemma {:induction false} PlainLines(msgs: seq<Json>)
    requires forall k :: 0 <= k < |msgs| ==> PlainEntry(msgs[k])
    ensures HistoryLines(msgs).Success?
    ensures |HistoryLines(msgs).value| == |msgs|
    ensures forall k :: 0 <= k < |msgs| ==> HistoryLines(msgs).value[k] == "  User: " + MessageOf(msgs[k])
    decreases |msgs|
  {
    if msgs != [] {
      var front := msgs[..|msgs| - 1];
      var last := msgs[|msgs| - 1];
      assert forall k :: 0 <= k < |front| ==> front[k] == msgs[k];
      PlainLines(front);
      var before := HistoryLines(front).value;
      PlainEntryLine(last);
      var all := before + ["  User: " + MessageOf(last)];
      assert HistoryLines(msgs) == Success(all);
      forall k | 0 <= k < |msgs|
        ensures all[k] == "  User: " + MessageOf(msgs[k])
      {
        if k < |front| {
          assert all[k] == before[k];
        }
      }
    }
  }

  /** Several blocks of lines, one after another. */
  function Concat(blocks: seq<seq<string>>): seq<string>
  {
    if blocks == [] then [] else blocks[0] + Concat(blocks[1..])
  }

  lemma {:induction false} ConcatSnoc(blocks: seq<seq<string>>, last: seq<string>)
    ensures Concat(blocks + [last]) == Concat(blocks) + last
    decreases |blocks|
  {
    if blocks != [] {
      assert (blocks + [last])[1..] == blocks[1..] + [last];
      ConcatSnoc(blocks[1..], last);
    }
  }

  /** Each entry's own lines, entry by entry. */
  function EntryBlocks(msgs: seq<Json>): seq<seq<string>>
    requires forall k :: 0 <= k < |msgs| ==> MessageLines(msgs[k]).Success?
  {
    seq(|msgs|, k requires 0 <= k < |msgs| => MessageLines(msgs[k]).value)
  }

  lemma EntryBlocksSnoc(msgs: seq<Json>)
    requires msgs != [] && forall k :: 0 <= k < |msgs| ==> MessageLines(msgs[k]).Success?
    ensures var front := msgs[..|msgs| - 1];
      && (forall k :: 0 <= k < |front| ==> MessageLines(front[k]).Success?)
      && EntryBlocks(msgs) == EntryBlocks(front) + [MessageLines(msgs[|msgs| - 1]).value]
  {
    var front := msgs[..|msgs| - 1];
    assert forall k :: 0 <= k < |front| ==> front[k] == msgs[k];
    var blocks := EntryBlocks(msgs);
    var shorter := EntryBlocks(front) + [MessageLines(msgs[|msgs| - 1]).value];
    assert |blocks| == |shorter|;
    forall k | 0 <= k < |blocks|
      ensures blocks[k] == shorter[k]
    {
      if k < |front| {
        assert shorter[k] == EntryBlocks(front)[k];
      }
    }
  }

  /** Reversing keeps the items. */
  lemma {:induction false} ReverseMembers<T>(s: seq<T>)
    ensures forall x :: x in Reverse(s) <==> x in s
  {
    if s != [] {
      ReverseMembers(s[1..]);
      assert s == [s[0]] + s[1..];
    }
  }

  /** A list history renders as nothing when empty, otherwise as its entries reversed
      between the header line and the empty closing line. */
  lemma ListHistoryBlock(items: seq<Json>)
    ensures HistoryBlock(JArray(items)) ==
      if items == [] then Success([])
      else match HistoryLines(Reverse(items))
        case Failure(e) => Failure(e)
        case Success(lines) => Success(["Recent conversation:"] + lines + [""])
  {
  }

  /** The entries render exactly when each of them does. */
  lemma {:induction false} HistoryLinesSucceedIff(msgs: seq<Json>)
    ensures HistoryLines(msgs).Success? <==> forall m :: m in msgs ==> MessageLines(m).Success?
    decreases |msgs|
  {
    if msgs != [] {
      var front := msgs[..|msgs| - 1];
      HistoryLinesSucceedIff(front);
      assert msgs == front + [msgs[|msgs| - 1]];
    }
  }

  /** Rendered entries give each entry's lines in turn. */
  lemma {:induction false} HistoryLinesConcat(msgs: seq<Json>)
    requires forall k :: 0 <= k < |msgs| ==> MessageLines(msgs[k]).Success?
    ensures HistoryLines(msgs) == Success(Concat(EntryBlocks(msgs)))
    decreases |msgs|
  {
    if msgs != [] {
      var front := msgs[..|msgs| - 1];
      var lines := MessageLines(msgs[|msgs| - 1]).value;
      assert forall k :: 0 <= k < |front| ==> front[k] == msgs[k];
      HistoryLinesConcat(front);
      EntryBlocksSnoc(msgs);
      ConcatSnoc(EntryBlocks(front), lines);
    }
  }

  /** A list history, stored newest first, renders exactly when every entry does; an empty
      one renders as nothing, and any other as the header line, each entry's lines (its
      `  User: ` line, then its `  Assistant: ` line when it has a response) oldest entry
      first, and the empty closing line. */
  lemma HistoryOldestFirst(items: seq<Json>)
    ensures HistoryBlock(JArray(items)).Success? <==> forall m :: m in items ==> MessageLines(m).Success?
    ensures items == [] ==> HistoryBlock(JArray(items)) == Success([])
    ensures items != [] && HistoryBlock(JArray(items)).Success? ==>
      && (forall k :: 0 <= k < |items| ==> MessageLines(Reverse(items)[k]).Success?)
      && HistoryBlock(JArray(items)).value == ["Recent conversation:"] + Concat(EntryBlocks(Reverse(items))) + [""]
  {
    var msgs := Reverse(items);
    ListHistoryBlock(items);
    HistoryLinesSucceedIff(msgs);
    ReverseMembers(items);
    if HistoryLines(msgs).Success? {
      assert forall k :: 0 <= k < |msgs| ==> msgs[k] in msgs;
      HistoryLinesConcat(msgs);
    }
  }

  /** The prompt opens with the `[User: u]` line unless the user is "unknown", and the
      joined text then starts with that line. */
  lemma UserLineFirst(prompt: Json, context: Json, user: Json, history: Json)
    requires PromptParts(prompt, context, user, history).Success?
    ensures var parts := PromptParts(prompt, context, user, history).value;
      && (user != JStr("unknown") ==> parts[0] == "[User: " + Display(user) + "]")
      && (user != JStr("unknown") ==>
            "[User: " + Display(user) + "]\n" <= EnhancedPrompt(prompt, context, user, history).value)
      && (user == JStr("unknown") && !Truthy(history) ==> parts[0] == prompt.s)
  {
    var parts := PromptParts(prompt, context, user, history).value;
    assert |parts| >= 1 + |UserLine(user)|;
    if user != JStr("unknown") {
      var line := "[User: " + Display(user) + "]";
      assert Join(parts, "\n") == line + "\n" + Join(parts[1..], "\n");
    }
  }

  /** The prompt follows the user line and the history block, and a non-empty context dict
      comes last as `\nContext:\n` and its `k: v` lines; without history and context the
      prompt is joined only to the user line. */
  lemma PromptPlacement(prompt: string, context: Json, user: Json, history: Json)
    requires PromptParts(JStr(prompt), context, user, history).Success?
    ensures var parts := PromptParts(JStr(prompt), context, user, history).value;
      var at := |UserLine(user)| + |HistoryBlock(history).value|;
      && at < |parts| && parts[at] == prompt
      && (!Truthy(context) ==> |parts| == at + 1)
      && (context.JObject? && context.fields != [] ==>
            |parts| == at + 2 && parts[at + 1] == "\nContext:\n" + Join(ContextLines(context.fields), "\n"))
    ensures !Truthy(history) && !Truthy(context) && user == JStr("unknown") ==>
      EnhancedPrompt(JStr(prompt), context, user, history) == Success(prompt)
  {
  }

  // ---------------------------------------------------------------------------
  // Scheduled tasks

  datatype Task = Task(cron: string, prompt: string, description: string)

  function TaskJson(t: Task): Json
  {
    JObject([("cron", JStr(t.cron)), ("prompt", JStr(t.prompt)), ("description", JStr(t.description))])
  }

  function TasksJson(ts: seq<Task>): (r: seq<Json>)
    ensures |r| == |ts| && forall k :: 0 <= k < |ts| ==> r[k] == TaskJson(ts[k])
  {
    seq(|ts|, k requires 0 <= k < |ts| => TaskJson(ts[k]))
  }

  const Marker := "SCHEDULE:"

  /** The task one line declares: its stripped form starts with the marker, and after
      removing the marker and stripping, the text splits at its first space into the
      cron expression and the prompt. */
  function MarkerTask(line: string): Option<Task>
  {
    if Marker <= Strip(line) then
      var parts := SplitOnce(Strip(RemoveAll(line, Marker)), ' ');
      if |parts| >= 2 then Some(Task(parts[0], parts[1], Take(parts[1], 50))) else None
    else None
  }

  /** What `f` gives for each line, in line order, skipping the lines it gives nothing for. */
  function Yields<T>(f: string -> Option<T>, lines: seq<string>): seq<T>
  {
    if lines == [] then []
    else
      var last := f(lines[|lines| - 1]);
      Yields(f, lines[..|lines| - 1]) + (if last.Some? then [last.value] else [])
  }

  /** The marker tasks of the lines, in line order. */
  function MarkerTasks(lines: seq<string>): seq<Task>
  {
    Yields(MarkerTask, lines)
  }

  /** The natural-language rule, on the lower-cased response. */
  predicate DailyReminder(response: string)
  {
    var low := Lower(response);
    && (Contains(low, "remind") || Contains(low, "schedule"))
    && (Contains(low, "daily") || Contains(low, "every day"))
    && (Contains(low, "9am") || Contains(low, "9 am"))
  }

  const ReminderCron := "0 9 * * *"
  const ReminderTask := Task(ReminderCron, "Daily reminder task", "Daily 9am reminder")

  /** Every task of `_extract_scheduled_tasks`: the marker tasks, then the reminder. */
  function ExtractedTasks(response: string): seq<Task>
  {
    MarkerTasks(Split(response, '\n')) + (if DailyReminder(response) then [ReminderTask] else [])
  }

  /** `_extract_scheduled_tasks`: one pass over the lines, then the reminder test. */
  method ExtractScheduledTasks(response: string) returns (tasks: seq<Task>)
    ensures tasks == ExtractedTasks(response)
  {
    tasks := ScanMarkers(Split(response, '\n'));
    var low := Lower(response);
    if Contains(low, "remind") || Contains(low, "schedule") {
      if Contains(low, "daily") || Contains(low, "every day") {
        if Contains(low, "9am") || Contains(low, "9 am") {
          tasks := tasks + [ReminderTask];
        }
      }
    }
  }

  /** The loop over the lines of the response. */
  method ScanMarkers(lines: seq<string>) returns (tasks: seq<Task>)
    ensures tasks == MarkerTasks(lines)
  {
    tasks := [];
    var i := 0;
    while i < |lines|
      invariant 0 <= i <= |lines|
      invariant tasks == MarkerTasks(lines[..i])
    {
      assert lines[..i + 1][..i] == lines[..i];
      var line := lines[i];
      ghost var found := MarkerTask(line);
      assert MarkerTasks(lines[..i + 1]) == tasks + (if found.Some? then [found.value] else []);
      if Marker <= Strip(line) {
        var parts := SplitOnce(Strip(RemoveAll(line, Marker)), ' ');
        if |parts| >= 2 {
          tasks := tasks + [Task(parts[0], parts[1], Take(parts[1], 50))];
        }
      }
      i := i + 1;
    }
    assert lines[..i] == lines;
  }

  lemma StripStart(s: string)
    ensures Strip(s) != [] ==> !IsSpace(Strip(s)[0])
  {
  }

  /** A line yields a task exactly when its stripped form starts with the marker and the
      remainder (marker removed, stripped) holds a space; the cron expression is then the
      non-empty, space-free text before that space, the prompt the text after it, and the
      description the prompt's first 50 characters. */
  lemma MarkerTaskShape(line: string)
    ensures MarkerTask(line).Some? <==> Marker <= Strip(line) && ' ' in Strip(RemoveAll(line, Marker))
    ensures MarkerTask(line).Some? ==>
      var t := MarkerTask(line).value;
      && t.cron != [] && ' ' !in t.cron
      && Strip(RemoveAll(line, Marker)) == t.cron + " " + t.prompt
      && t.description == Take(t.prompt, 50) && |t.description| <= 50
  {
    var rest := Strip(RemoveAll(line, Marker));
    StripStart(RemoveAll(line, Marker));
    if ' ' in rest {
      var parts := SplitOnce(rest, ' ');
      assert rest == parts[0] + [' '] + parts[1];
    }
  }

  /** Marker tasks keep line order: the tasks of two blocks of lines are the tasks of the
      first block followed by those of the second. */
  lemma MarkerTasksConcat(a: seq<string>, b: seq<string>)
    ensures MarkerTasks(a + b) == MarkerTasks(a) + MarkerTasks(b)
  {
    YieldsConcat(MarkerTask, a, b);
  }

  lemma {:induction false} YieldsConcat<T>(f: string -> Option<T>, a: seq<string>, b: seq<string>)
    ensures Yields(f, a + b) == Yields(f, a) + Yields(f, b)
    decreases |b|
  {
    if b == [] {
      assert a + b == a;
    } else {
      var b' := b[..|b| - 1];
      assert (a + b)[..|a + b| - 1] == a + b';
      assert (a + b)[|a + b| - 1] == b[|b| - 1];
      YieldsConcat(f, a, b');
    }
  }

  /** Every marker task comes from one of the lines. */
  lemma {:induction false} MarkerTasksFromLines(lines: seq<string>, t: Task)
    requires t in MarkerTasks(lines)
    ensures exists i :: 0 <= i < |lines| && MarkerTask(lines[i]) == Some(t)
    decreases |lines|
  {
    var front := lines[..|lines| - 1];
    var last := MarkerTask(lines[|lines| - 1]);
    if t in MarkerTasks(front) {
      MarkerTasksFromLines(front, t);
      var i :| 0 <= i < |front| && MarkerTask(front[i]) == Some(t);
      assert lines[i] == front[i];
    } else {
      assert last == Some(t);
    }
  }

  lemma {:induction false} MarkerCronsHaveNoSpace(lines: seq<string>)
    ensures forall t :: t in MarkerTasks(lines) ==> ' ' !in t.cron
  {
    forall t | t in MarkerTasks(lines) ensures ' ' !in t.cron {
      MarkerTasksFromLines(lines, t);
      var i :| 0 <= i < |lines| && MarkerTask(lines[i]) == Some(t);
      MarkerTaskShape(lines[i]);
    }
  }

  /** At most one task has the reminder's cron expression, it is the last one, and it is
      there exactly when the reminder rule fires. */
  lemma ReminderIsLastAndUnique(response: string)
    ensures var tasks := ExtractedTasks(response);
      && (DailyReminder(response) <==> tasks != [] && tasks[|tasks| - 1] == ReminderTask)
      && forall k :: 0 <= k < |tasks| && tasks[k].cron == ReminderCron ==>
           k == |tasks| - 1 && DailyReminder(response)
  {
    MarkerCronsHaveNoSpace(Split(response, '\n'));
    ReminderAfter(MarkerTasks(Split(response, '\n')), DailyReminder(response));
  }

  /** The reminder appended after tasks whose cron expressions have no space is the only
      task with the reminder's cron expression. */
  lemma ReminderAfter(marker: seq<Task>, fires: bool)
    requires forall t :: t in marker ==> ' ' !in t.cron
    ensures var tasks := marker + (if fires then [ReminderTask] else []);
      && (fires <==> tasks != [] && tasks[|tasks| - 1] == ReminderTask)
      && forall k :: 0 <= k < |tasks| && tasks[k].cron == ReminderCron ==> k == |tasks| - 1 && fires
  {
    assert ' ' in ReminderCron;
    var tasks := marker + (if fires then [ReminderTask] else []);
    assert forall j :: 0 <= j < |marker| ==> tasks[j] == marker[j] && tasks[j] in marker;
    forall k | 0 <= k < |tasks| && tasks[k].cron == ReminderCron
      ensures k == |tasks| - 1 && fires
    {
      assert tasks[k] !in marker;
    }
    assert ReminderTask !in marker;
  }

  /** The reminder rule ignores letter case. */
  lemma ReminderIgnoresCase(response: string)
    ensures DailyReminder(Lower(response)) == DailyReminder(response)
  {
    assert Lower(Lower(response)) == Lower(response);
  }

  // ---------------------------------------------------------------------------
  // The agent reply

  /** `model_map` on the lower-cased hint. */
  function ModelId(hint: string): (r: Option<string>)
    ensures r == Some("claude-haiku-4-5") <==> Lower(hint) == "haiku"
    ensures r == Some("claude-sonnet-4-5") <==> Lower(hint) == "sonnet"
    ensures r == Some("claude-opus-4-6") <==> Lower(hint) == "opus"
    ensures r.None? <==> Lower(hint) != "haiku" && Lower(hint) != "sonnet" && Lower(hint) != "opus"
  {
    var h := Lower(hint);
    if h == "haiku" then Some("claude-haiku-4-5")
    else if h == "sonnet" then Some("claude-sonnet-4-5")
    else if h == "opus" then Some("claude-opus-4-6")
    else None
  }

  /** The model option: a falsy hint sets none, a string hint sets the mapped id when
      there is one, and `.lower()` on any other truthy value raises. */
  function ModelChoice(hint: Json): Result<Option<string>>
  {
    if !Truthy(hint) then Success(None)
    else
      match hint
      case JStr(s) => Success(ModelId(s))
      case _ => Failure(AttributeError("'" + TypeName(hint) + "' object has no attribute 'lower'"))
  }

  /** `options_dict.get("model", "auto")` */
  function ModelUsed(choice: Option<string>): string
  {
    choice.GetOr("auto")
  }

  /** An absent or unknown hint reports `auto`; a known one, in any letter case, its id. */
  lemma ModelHintMapping(hint: Json)
    ensures hint == JNull ==> ModelChoice(hint) == Success(None) && ModelUsed(ModelChoice(hint).value) == "auto"
    ensures hint.JStr? && Lower(hint.s) == "opus" ==> ModelChoice(hint) == Success(Some("claude-opus-4-6"))
    ensures hint.JStr? && ModelId(hint.s).None? ==> ModelUsed(ModelChoice(hint).value) == "auto"
    ensures hint.JStr? ==> ModelChoice(hint) == ModelChoice(JStr(Lower(hint.s)))
  {
    if hint.JStr? {
      assert Lower(Lower(hint.s)) == Lower(hint.s);
      assert Truthy(hint) <==> Truthy(JStr(Lower(hint.s)));
    }
  }

  datatype Block = TextBlock(text: string) | ToolUseBlock(name: string) | ThinkingBlock(thinking: string)

  /** The messages the agent streams back; only assistant messages carry content. */
  datatype Message = AssistantMessage(content: seq<Block>) | ResultMessage(sessionId: string) | OtherMessage

  function BlocksText(blocks: seq<Block>): string
  {
    if blocks == [] then ""
    else BlocksText(blocks[..|blocks| - 1]) + (if blocks[|blocks| - 1].TextBlock? then blocks[|blocks| - 1].text else "")
  }

  function BlocksTools(blocks: seq<Block>): seq<string>
  {
    if blocks == [] then []
    else
      BlocksTools(blocks[..|blocks| - 1])
      + (if blocks[|blocks| - 1].ToolUseBlock? then ["[Tool: " + blocks[|blocks| - 1].name + "]"] else [])
  }

  /** The text blocks of all assistant messages, concatenated in order. */
  function ReplyText(messages: seq<Message>): string
  {
    if messages == [] then ""
    else
      var last := messages[|messages| - 1];
      ReplyText(messages[..|messages| - 1]) + (if last.AssistantMessage? then BlocksText(last.content) else "")
  }

  /** One `[Tool: name]` per tool use of all assistant messages, in order. */
  function ReplyTools(messages: seq<Message>): seq<string>
  {
    if messages == [] then []
    else
      var last := messages[|messages| - 1];
      ReplyTools(messages[..|messages| - 1]) + (if last.AssistantMessage? then BlocksTools(last.content) else [])
  }

  const NoResponse := "No response received from Claude SDK"

  /** The text with the tool tags appended after a blank line, or the fallback message
      when that is empty. */
  function FinalResponse(text: string, tools: seq<string>): string
  {
    var full := if tools != [] then text + "\n\n" + Join(tools, " ") else text;
    if full != "" then full else NoResponse
  }

  /** The message loop of `execute_with_sdk`. */
  method FoldReply(messages: seq<Message>) returns (response: string)
    ensures response == FinalResponse(ReplyText(messages), ReplyTools(messages))
  {
    var text := "";
    var tools: seq<string> := [];
    var i := 0;
    while i < |messages|
      invariant 0 <= i <= |messages|
      invariant text == ReplyText(messages[..i]) && tools == ReplyTools(messages[..i])
    {
      assert messages[..i + 1][..i] == messages[..i];
      match messages[i] {
        case AssistantMessage(content) =>
          var blockText, blockTools := FoldBlocks(content);
          text := text + blockText;
          tools := tools + blockTools;
        case _ =>
      }
      i := i + 1;
    }
    assert messages[..i] == messages;
    if tools != [] {
      text := text + "\n\n" + Join(tools, " ");
    }
    response := if text != "" then text else NoResponse;
  }

  /** The block loop of one assistant message. */
  method FoldBlocks(content: seq<Block>) returns (text: string, tools: seq<string>)
    ensures text == BlocksText(content) && tools == BlocksTools(content)
  {
    text := "";
    tools := [];
    var j := 0;
    while j < |content|
      invariant 0 <= j <= |content|
      invariant text == BlocksText(content[..j]) && tools == BlocksTools(content[..j])
    {
      assert content[..j + 1][..j] == content[..j];
      match content[j] {
        case TextBlock(t) => text := text + t;
        case ToolUseBlock(name) => tools := tools + ["[Tool: " + name + "]"];
        case ThinkingBlock(_) =>
      }
      j := j + 1;
    }
    assert content[..j] == content;
  }

  /** Folding keeps stream order: the reply of two consecutive stretches of messages is
      the reply of the first followed by that of the second, for the text ... */
  lemma {:induction false} ReplyTextConcat(a: seq<Message>, b: seq<Message>)
    ensures ReplyText(a + b) == ReplyText(a) + ReplyText(b)
    decreases |b|
  {
    if b == [] {
      assert a + b == a;
    } else {
      var b' := b[..|b| - 1];
      var last := b[|b| - 1];
      var piece := if last.AssistantMessage? then BlocksText(last.content) else "";
      assert (a + b)[..|a + b| - 1] == a + b';
      assert (a + b)[|a + b| - 1] == last;
      assert ReplyText(a + b) == ReplyText(a + b') + piece;
      assert ReplyText(b) == ReplyText(b') + piece;
      ReplyTextConcat(a, b');
    }
  }

  /** ... and for the tool tags. */
  lemma {:induction false} ReplyToolsConcat(a: seq<Message>, b: seq<Message>)
    ensures ReplyTools(a + b) == ReplyTools(a) + ReplyTools(b)
    decreases |b|
  {
    if b == [] {
      assert a + b == a;
    } else {
      var b' := b[..|b| - 1];
      var last := b[|b| - 1];
      var piece := if last.AssistantMessage? then BlocksTools(last.content) else [];
      assert (a + b)[..|a + b| - 1] == a + b';
      assert (a + b)[|a + b| - 1] == last;
      assert ReplyTools(a + b) == ReplyTools(a + b') + piece;
      assert ReplyTools(b) == ReplyTools(b') + piece;
      ReplyToolsConcat(a, b');
    }
  }

  /** The fallback text is used exactly when there is neither text nor a tool use, and
      tool tags always follow the text after a blank line. */
  lemma FallbackOnlyWhenEmpty(text: string, tools: seq<string>)
    ensures FinalResponse(text, tools) != NoResponse ==> text != "" || tools != []
    ensures text == "" && tools == [] ==> FinalResponse(text, tools) == NoResponse
    ensures tools != [] ==> FinalResponse(text, tools) == text + "\n\n" + Join(tools, " ")
    ensures tools == [] && text != "" ==> FinalResponse(text, tools) == text
  {
  }

  // ---------------------------------------------------------------------------
  // `run`

  /** The agent: given the prompt, the system prompt and the model option, it streams
      messages back or raises. */
  datatype AgentReply = Streamed(messages: seq<Message>) | AgentFailed(error: Exception)
  type Agent = (string, string, Option<string>) -> AgentReply

  const SidecarName := ".noclaw_output.json"

  /** `CLAUDE.md` when present, then the stripped memory under a heading when it is
      non-empty; a file that cannot be read raises. */
  function SystemPrompt(files: map<string, File>): Result<string>
  {
    var instructions :=
      if "CLAUDE.md" !in files then Success("")
      else if files["CLAUDE.md"].Unreadable? then Failure(OSError("CLAUDE.md"))
      else Success(files["CLAUDE.md"].contents);
    if instructions.Failure? then instructions
    else if "memory.md" !in files then instructions
    else if files["memory.md"].Unreadable? then Failure(OSError("memory.md"))
    else
      var memory := Strip(files["memory.md"].contents);
      if memory != "" then Success(instructions.value + "\n\n## Remembered Facts\n" + memory) else instructions
  }

  /** Memory is added only when its stripped text is non-empty. */
  lemma MemoryOnlyWhenNonEmpty(files: map<string, File>, instructions: string, memory: string)
    requires "CLAUDE.md" in files && files["CLAUDE.md"] == Text(instructions)
    requires "memory.md" in files && files["memory.md"] == Text(memory)
    ensures Strip(memory) == "" ==> SystemPrompt(files) == Success(instructions)
    ensures Strip(memory) != "" ==>
      SystemPrompt(files) == Success(instructions + "\n\n## Remembered Facts\n" + Strip(memory))
  {
  }

  /** The guarded part of `run`: the model option, the agent call and the fold, giving
      the response text and the model used, or the exception that was caught. */
  function Attempt(prompt: string, system: string, hint: Json, agent: Agent): Result<(string, string)>
  {
    match ModelChoice(hint)
    case Failure(e) => Failure(e)
    case Success(choice) =>
      match agent(prompt, system, choice)
      case AgentFailed(e) => Failure(e)
      case Streamed(messages) =>
        Success((FinalResponse(ReplyText(messages), ReplyTools(messages)), ModelUsed(choice)))
  }

  function SidecarRecord(tasks: seq<Task>): Json
  {
    JObject([("scheduled_tasks", JArray(TasksJson(tasks)))])
  }

  function SuccessRecord(response: string, tasks: seq<Task>, model: string, user: Json): Json
  {
    JObject([("response", JStr(response)), ("scheduled_tasks", JArray(TasksJson(tasks))),
             ("model_used", JStr(model)), ("tokens_used", JNull), ("user", user), ("success", JBool(true))])
  }

  function ErrorRecord(e: Exception, traceback: string, user: Json): Json
  {
    JObject([("response", JStr("Error executing request: " + Str(e))), ("error", JStr(Str(e))),
             ("traceback", JStr(traceback)), ("user", user), ("success", JBool(false))])
  }

  /** On success the returned tasks are the ones the sidecar holds, and `success` is true. */
  lemma SuccessRecordAgrees(response: string, tasks: seq<Task>, model: string, user: Json)
    ensures var ok := SuccessRecord(response, tasks, model, user);
      && Get(ok.fields, "scheduled_tasks") == Get(SidecarRecord(tasks).fields, "scheduled_tasks")
      && Get(ok.fields, "success") == Some(JBool(true))
      && Get(ok.fields, "response") == Some(JStr(response))
  {
    var f := SuccessRecord(response, tasks, model, user).fields;
    GetAt(f, 0, "response");
    GetAt(f, 1, "scheduled_tasks");
    GetAt(f, 5, "success");
    GetAt(SidecarRecord(tasks).fields, 0, "scheduled_tasks");
  }

  /** On a caught exception `success` is false, the response names the error, and no
      tasks are reported. */
  lemma ErrorRecordShape(e: Exception, traceback: string, user: Json)
    ensures var failed := ErrorRecord(e, traceback, user);
      && Get(failed.fields, "success") == Some(JBool(false))
      && Get(failed.fields, "response") == Some(JStr("Error executing request: " + Str(e)))
      && Get(failed.fields, "scheduled_tasks").None?
  {
    var g := ErrorRecord(e, traceback, user).fields;
    GetAt(g, 0, "response");
    GetAt(g, 4, "success");
    assert forall j :: 0 <= j < |g| ==> |g[j].0| != |"scheduled_tasks"|;
    GetAbsent(g, "scheduled_tasks");
  }

  /** `ClaudeWorker.run` on the decoded input record, in the workspace `ws`. Reading the
      instructions or the memory and assembling the prompt happen before the guarded
      part, so their exceptions escape and nothing is written. In the guarded part
      success writes the sidecar and a caught exception writes nothing. `traceback` is
      the text the interpreter formats for the caught exception. */
  method Run(input: seq<(string, Json)>, ws: Directory, agent: Agent, json: JsonLib, traceback: string)
    returns (r: Result<Json>)
    modifies ws
    ensures ws.present == old(ws.present)
    ensures SystemPrompt(old(ws.files)).Failure? ==> r == Failure(SystemPrompt(old(ws.files)).error) && ws.files == old(ws.files)
    ensures SystemPrompt(old(ws.files)).Success? ==>
      var user := Get(input, "user").GetOr(JStr("unknown"));
      var prompt := EnhancedPrompt(Get(input, "prompt").GetOr(JStr("")), Get(input, "context").GetOr(JObject([])),
                                   user, Get(input, "history").GetOr(JArray([])));
      && (prompt.Failure? ==> r == Failure(prompt.error) && ws.files == old(ws.files))
      && (prompt.Success? ==>
            var attempt := Attempt(prompt.value, SystemPrompt(old(ws.files)).value, Get(input, "model_hint").GetOr(JNull), agent);
            && (attempt.Failure? ==> r == Success(ErrorRecord(attempt.error, traceback, user)) && ws.files == old(ws.files))
            && (attempt.Success? ==>
                  var tasks := ExtractedTasks(attempt.value.0);
                  && ws.files == old(ws.files)[SidecarName := Text(json.dumps(SidecarRecord(tasks)))]
                  && r == Success(SuccessRecord(attempt.value.0, tasks, attempt.value.1, user))))
  {
    var prompt := Get(input, "prompt").GetOr(JStr(""));
    var user := Get(input, "user").GetOr(JStr("unknown"));
    var context := Get(input, "context").GetOr(JObject([]));
    var hint := Get(input, "model_hint").GetOr(JNull);
    var system := SystemPrompt(ws.files);
    if system.Failure? {
      return Failure(system.error);
    }
    var history := Get(input, "history").GetOr(JArray([]));
    var enhanced := EnhancePrompt(prompt, context, user, history);
    if enhanced.Failure? {
      return Failure(enhanced.error);
    }
    r := Respond(enhanced.value, system.value, hint, user, ws, agent, json, traceback);
  }

  /** The guarded part of `run`: query the agent, extract the tasks and write the sidecar;
      an exception raised on the way is caught and reported in the error record. */
  method Respond(prompt: string, system: string, hint: Json, user: Json, ws: Directory, agent: Agent,
                 json: JsonLib, traceback: string)
    returns (r: Result<Json>)
    modifies ws
    ensures ws.present == old(ws.present)
    ensures var attempt := Attempt(prompt, system, hint, agent);
      && (attempt.Failure? ==> r == Success(ErrorRecord(attempt.error, traceback, user)) && ws.files == old(ws.files))
      && (attempt.Success? ==>
            var tasks := ExtractedTasks(attempt.value.0);
            && ws.files == old(ws.files)[SidecarName := Text(json.dumps(SidecarRecord(tasks)))]
            && r == Success(SuccessRecord(attempt.value.0, tasks, attempt.value.1, user)))
  {
    var choice := ModelChoice(hint);
    if choice.Failure? {
      return Success(ErrorRecord(choice.error, traceback, user));
    }
    var reply := agent(prompt, system, choice.value);
    if reply.AgentFailed? {
      return Success(ErrorRecord(reply.error, traceback, user));
    }
    var response := FoldReply(reply.messages);
    ghost var attempt := Attempt(prompt, system, hint, agent);
    assert attempt == Success((response, ModelUsed(choice.value)));
    var tasks := ExtractScheduledTasks(response);
    ws.files := ws.files[SidecarName := Text(json.dumps(SidecarRecord(tasks)))];
    r := Success(SuccessRecord(response, tasks, ModelUsed(choice.value), user));
  }
}
