/** The heartbeat scheduler: periodic check-ins for users who enabled them. The `contexts`
    table and the `heartbeat_log` table live in an in-memory database object; timestamps are
    integer seconds and the assistant's `process_message` is a function parameter. */
module Heartbeat {
  import opened Prelude
  import opened Strings

  const DefaultInterval := 1800
  const HeartbeatFile := "HEARTBEAT.md"
  const OkToken := "HEARTBEAT_OK"
  /** `json.dumps({"default": True})`, stored with every log entry. */
  const ChecksRun := "{\"default\": true}"

  /** One row of `contexts` as the heartbeat reads it: `heartbeat_enabled` (1 when on),
      `heartbeat_interval` (NULL is `None`) and `last_heartbeat` (NULL is `None`). */
  datatype Row = Row(user: string, enabled: int, interval: Option<int>, last: Option<int>)

  /** One row of `heartbeat_log`. */
  datatype LogEntry = LogEntry(user: string, result: Json, checksRun: string)

  /** The SQLite database: `online` is whether connecting and executing succeed. A statement
      that fails is caught and logged by its caller, and changes nothing. */
  class Database {
    var online: bool
    var contexts: seq<Row>
    var log: seq<LogEntry>

    constructor (online: bool, contexts: seq<Row>)
      ensures this.online == online && this.contexts == contexts && log == []
    {
      this.online := online;
      this.contexts := contexts;
      log := [];
    }
  }

  // ---------------------------------------------------------------------------
  // Which users are due

  /** `row["heartbeat_interval"] or self.default_interval`: NULL and 0 fall back to the default. */
  function EffectiveInterval(row: Row, default: int): int
  {
    if row.interval.Some? && row.interval.value != 0 then row.interval.value else default
  }

  /** A user never checked is due; otherwise a user is due once the interval has passed. */
  predicate IsDue(row: Row, now: int, default: int)
  {
    row.last.None? || now >= row.last.value + EffectiveInterval(row, default)
  }

  /** The `(user_id, interval)` pairs `_get_users_for_heartbeat` returns, in table order:
      the enabled rows (`WHERE heartbeat_enabled = 1`) that are due. */
  function DueUsers(rows: seq<Row>, now: int, default: int): seq<(string, int)>
  {
    if rows == [] then []
    else
      var head := DueUsers(rows[..|rows| - 1], now, default);
      var row := rows[|rows| - 1];
      if row.enabled == 1 && IsDue(row, now, default)
      then head + [(row.user, EffectiveInterval(row, default))]
      else head
  }

  /** A pair is selected exactly when some enabled row of that user is due with that interval. */
  lemma {:induction false} DueUsersIff(rows: seq<Row>, now: int, default: int, user: string, interval: int)
    ensures (user, interval) in DueUsers(rows, now, default) <==>
      exists k :: 0 <= k < |rows| && rows[k].user == user && rows[k].enabled == 1
        && IsDue(rows[k], now, default) && interval == EffectiveInterval(rows[k], default)
  {
    if rows != [] {
      var init := rows[..|rows| - 1];
      DueUsersIff(init, now, default, user, interval);
      assert forall k :: 0 <= k < |init| ==> init[k] == rows[k];
    }
  }

  /** Every selected user has a row in the table. */
  lemma DueUsersHaveRows(rows: seq<Row>, now: int, default: int)
    ensures forall p :: p in DueUsers(rows, now, default) ==> exists k :: 0 <= k < |rows| && rows[k].user == p.0
  {
    forall p | p in DueUsers(rows, now, default)
      ensures exists k :: 0 <= k < |rows| && rows[k].user == p.0
    {
      DueUsersIff(rows, now, default, p.0, p.1);
    }
  }

  /** `min([interval for _, interval in users], default=self.default_interval)` */
  function NextSleep(users: seq<(string, int)>, default: int): (r: int)
    ensures users == [] ==> r == default
    ensures users != [] ==> exists k :: 0 <= k < |users| && r == users[k].1
    ensures forall k :: 0 <= k < |users| ==> r <= users[k].1
  {
    if users == [] then default
    else if |users| == 1 then users[0].1
    else
      var rest := NextSleep(users[1..], default);
      assert forall k :: 1 <= k < |users| ==> users[k] == users[1..][k - 1];
      if users[0].1 <= rest then users[0].1 else rest
  }

  // ---------------------------------------------------------------------------
  // Row updates

  /** `UPDATE contexts SET … WHERE user_id = ?`: `change` applies to that user's rows only. */
  function UpdateWhere(rows: seq<Row>, user: string, change: Row -> Row): (r: seq<Row>)
    ensures |r| == |rows|
    ensures forall k :: 0 <= k < |rows| ==> r[k] == if rows[k].user == user then change(rows[k]) else rows[k]
  {
    if rows == [] then []
    else [if rows[0].user == user then change(rows[0]) else rows[0]] + UpdateWhere(rows[1..], user, change)
  }

  function Enabled(rows: seq<Row>, user: string, interval: int): seq<Row>
  {
    UpdateWhere(rows, user, (r: Row) => r.(enabled := 1, interval := Some(interval)))
  }

  function Disabled(rows: seq<Row>, user: string): seq<Row>
  {
    UpdateWhere(rows, user, (r: Row) => r.(enabled := 0))
  }

  function Checked(rows: seq<Row>, user: string, now: int): seq<Row>
  {
    UpdateWhere(rows, user, (r: Row) => r.(last := Some(now)))
  }

  /** `interval or self.default_interval` in `enable_for_user`. */
  function GivenOr(interval: Option<int>, default: int): int
  {
    if interval.Some? && interval.value != 0 then interval.value else default
  }

  /** A user enabled before any heartbeat is due at once, with the interval `enable_for_user`
      stored (or the default when that is 0). */
  lemma EnabledIsDue(rows: seq<Row>, user: string, interval: int, now: int, default: int, k: nat)
    requires k < |rows| && rows[k].user == user && rows[k].last.None?
    ensures (user, if interval != 0 then interval else default) in DueUsers(Enabled(rows, user, interval), now, default)
  {
    var after := Enabled(rows, user, interval);
    assert after[k] == rows[k].(enabled := 1, interval := Some(interval));
    DueUsersIff(after, now, default, user, if interval != 0 then interval else default);
  }

  /** A disabled user is never selected, whatever the clock says. */
  lemma DisabledIsNotDue(rows: seq<Row>, user: string, now: int, default: int, interval: int)
    ensures (user, interval) !in DueUsers(Disabled(rows, user), now, default)
  {
    var after := Disabled(rows, user);
    DueUsersIff(after, now, default, user, interval);
    assert forall k :: 0 <= k < |after| && after[k].user == user ==> after[k].enabled == 0;
  }

  /** Enabling sets the flag and the interval of that user's rows, disabling clears the flag
      and keeps the interval, and every other user's row stays as it was. */
  lemma EnableDisableRows(rows: seq<Row>, user: string, interval: int, k: nat)
    requires k < |rows|
    ensures |Enabled(rows, user, interval)| == |rows| && |Disabled(rows, user)| == |rows|
    ensures rows[k].user != user ==> Enabled(rows, user, interval)[k] == rows[k] && Disabled(rows, user)[k] == rows[k]
    ensures rows[k].user == user ==>
      && Enabled(rows, user, interval)[k] == Row(user, 1, Some(interval), rows[k].last)
      && Disabled(rows, user)[k] == Row(user, 0, rows[k].interval, rows[k].last)
  {
  }

  /** Right after a check, a user whose interval is positive is not due again until the
      interval has passed, and is due from then on. */
  lemma CheckedDueAgainAfterInterval(rows: seq<Row>, user: string, now: int, t: int, default: int, k: nat)
    requires k < |rows| && rows[k].user == user
    ensures var row := Checked(rows, user, now)[k];
      IsDue(row, t, default) <==> t >= now + EffectiveInterval(rows[k], default)
  {
    assert Checked(rows, user, now)[k] == rows[k].(last := Some(now));
  }

  // ---------------------------------------------------------------------------
  // One user's turn

  const ChecklistHeader := "Heartbeat Checklist"
  const ChecklistTitle := "# " + ChecklistHeader + " for "
  const ChecklistBody := "\n\nThis checklist is reviewed every heartbeat (default: 30 minutes).\n\n"
    + "## Checks\n\n- [ ] Any urgent messages or notifications?\n- [ ] Any tasks due soon?\n"
    + "- [ ] Any errors or issues that need attention?\n\n## Instructions\n\n"
    + "Only respond if something genuinely needs attention.\nOtherwise, respond with: "
  const ChecklistClose := "\n\nKeep responses brief and actionable.\n"

  /** The `HEARTBEAT.md` that `_create_default_heartbeat` writes. */
  function DefaultChecklist(user: string): string
  {
    ChecklistTitle + user + ChecklistBody + OkToken + ChecklistClose
  }

  /** The default checklist names its user, has the checklist header and tells the model to
      answer `HEARTBEAT_OK`. */
  lemma DefaultChecklistContents(user: string)
    ensures Contains(DefaultChecklist(user), user)
    ensures Contains(DefaultChecklist(user), OkToken)
    ensures Contains(DefaultChecklist(user), ChecklistHeader)
  {
    ContainsMiddle("# ", ChecklistHeader, " for ");
    FiveParts(ChecklistTitle, user, ChecklistBody, OkToken, ChecklistClose, ChecklistHeader);
  }

  const PromptHead := "[HEARTBEAT CHECK]\n\nReview the checklist below and check if anything needs attention:\n\n"
  const PromptMiddle := "\n\nIf nothing needs attention, respond with exactly: "
  const PromptTail := "\n\nIf something needs attention, briefly describe what and why.\n"
    + "Keep it concise (1-2 sentences max).\n"

  /** The heartbeat prompt around the checklist. */
  function HeartbeatPrompt(checklist: string): string
  {
    PromptHead + checklist + PromptMiddle + OkToken + PromptTail
  }

  /** The prompt carries the whole checklist and the answer that means nothing to report. */
  lemma PromptContents(checklist: string)
    ensures Contains(HeartbeatPrompt(checklist), checklist)
    ensures Contains(HeartbeatPrompt(checklist), OkToken)
  {
    FiveParts(PromptHead, checklist, PromptMiddle, OkToken, PromptTail, checklist);
  }

  /** Text made of five pieces contains the second and the fourth, and what the first contains. */
  lemma FiveParts(a: string, b: string, c: string, d: string, e: string, p: string)
    ensures Contains(a + b + c + d + e, b) && Contains(a + b + c + d + e, d)
    ensures Contains(a, p) ==> Contains(a + b + c + d + e, p)
  {
    var s := a + b + c + d + e;
    assert s == a + b + (c + d + e);
    ContainsMiddle(a, b, c + d + e);
    ContainsMiddle(a + b + c, d, e);
    if Contains(a, p) {
      assert s == a + (b + c + d + e);
      ContainsLeft(a, b + c + d + e, p);
    }
  }

  /** `process_message(user=…, message=…, model_hint=…)`: the result dict or the exception. */
  type ProcessMessage = (string, string, string) -> Result<seq<(string, Json)>>

  /** `result.get("response", "")` */
  function ResponseOf(result: seq<(string, Json)>): Json
  {
    Get(result, "response").GetOr(JStr(""))
  }

  /** SQLite binds strings, booleans, None and integers of 64 bits; a list or dict parameter
      makes the insert fail, and so does a wider integer. */
  predicate Storable(j: Json)
  {
    && !j.JArray? && !j.JObject?
    && (j.JInt? ==> -0x8000_0000_0000_0000 <= j.i < 0x8000_0000_0000_0000)
  }

  /** How a turn ends: OK or an alert after the response was logged, an exception the turn
      catches itself, or one that escapes to the loop (both only logged). */
  datatype Turn = Ok | Alert | Caught(error: Exception) | Escaped(error: Exception)

  /** `"HEARTBEAT_OK" in response`, then `response[:100]` for an alert. */
  function Classify(response: Json): (r: Turn)
    ensures response.JStr? ==> (r == Ok <==> Contains(response.s, OkToken))
    ensures response.JStr? && r != Ok ==> r == Alert
    ensures r.Ok? || r.Alert? || r.Caught?
  {
    match response
    case JStr(s) => if Contains(s, OkToken) then Ok else Alert
    case JArray(items) => if JStr(OkToken) in items then Ok else Alert
    case JObject(fields) =>
      if Get(fields, OkToken).Some? then Ok else Caught(TypeError("unhashable type: 'slice'"))
    case _ => Caught(TypeError("argument of type '" + TypeName(response) + "' is not iterable"))
  }

  /** The `running`/`task` pair: no loop task yet, a running one, or a cancelled one. */
  datatype LoopTask = NoTask | Running | Cancelled

  class HeartbeatScheduler {
    const db: Database
    const defaultInterval: int
    var running: bool
    var task: LoopTask

    /** A loop task runs exactly while the scheduler is running. */
    ghost predicate Valid()
      reads this
    {
      running <==> task == Running
    }

    constructor (db: Database, defaultInterval: int)
      ensures Valid()
      ensures this.db == db && this.defaultInterval == defaultInterval
      ensures !running && task == NoTask
    {
      this.db := db;
      this.defaultInterval := defaultInterval;
      running := false;
      task := NoTask;
    }

    /** `HeartbeatScheduler(assistant)`: the 30-minute default. */
    constructor WithDefaults(db: Database)
      ensures Valid()
      ensures this.db == db && defaultInterval == DefaultInterval
      ensures !running && task == NoTask
    {
      this.db := db;
      defaultInterval := DefaultInterval;
      running := false;
      task := NoTask;
    }

    /** `start`: a no-op while running, otherwise it sets the flag and starts the loop. */
    method Start()
      requires Valid()
      modifies this
      ensures Valid() && running
      ensures old(running) ==> task == old(task)
      ensures !old(running) ==> task == Running
    {
      if running {
        return;
      }
      running := true;
      task := Running;
    }

    /** `stop`: clears the flag and cancels the loop task if one was ever started. */
    method Stop()
      requires Valid()
      modifies this
      ensures Valid() && !running
      ensures task == if old(task) == NoTask then NoTask else Cancelled
    {
      running := false;
      if task != NoTask {
        task := Cancelled;
      }
    }

    /** `_get_users_for_heartbeat`: the due users in table order, or none when the query fails. */
    method GetUsersForHeartbeat(now: int) returns (users: seq<(string, int)>)
      ensures users == if db.online then DueUsers(db.contexts, now, defaultInterval) else []
    {
      users := [];
      if !db.online {
        return;
      }
      var rows := db.contexts;
      var i := 0;
      while i < |rows|
        invariant 0 <= i <= |rows|
        invariant users == DueUsers(rows[..i], now, defaultInterval)
      {
        var row := rows[i];
        assert rows[..i + 1][..i] == rows[..i];
        if row.enabled == 1 {
          var interval := if row.interval.Some? && row.interval.value != 0 then row.interval.value
                          else defaultInterval;
          if row.last.Some? {
            var nextCheck := row.last.value + interval;
            if now >= nextCheck {
              users := users + [(row.user, interval)];
            }
          } else {
            users := users + [(row.user, interval)];
          }
        }
        i := i + 1;
      }
      assert rows[..i] == rows;
    }

    /** `_create_default_heartbeat`: writing fails when the workspace directory is missing. */
    method CreateDefaultHeartbeat(user: string, ws: Directory) returns (error: Option<Exception>)
      modifies ws
      ensures ws.present == old(ws.present)
      ensures old(ws.present) ==> error.None? && ws.files == old(ws.files)[HeartbeatFile := Text(DefaultChecklist(user))]
      ensures !old(ws.present) ==> error == Some(OSError(HeartbeatFile)) && ws.files == old(ws.files)
    {
      if !ws.present {
        return Some(OSError(HeartbeatFile));
      }
      ws.files := ws.files[HeartbeatFile := Text(DefaultChecklist(user))];
      return None;
    }

    /** `_log_heartbeat`: one row appended, unless the insert fails. */
    method LogHeartbeat(user: string, result: Json)
      modifies db
      ensures db.online == old(db.online) && db.contexts == old(db.contexts)
      ensures db.log == old(db.log) + if db.online && Storable(result) then [LogEntry(user, result, ChecksRun)] else []
    {
      if db.online && Storable(result) {
        db.log := db.log + [LogEntry(user, result, ChecksRun)];
      }
    }

    /** `_update_last_heartbeat`: that user's `last_heartbeat` becomes `now`. */
    method UpdateLastHeartbeat(user: string, now: int)
      modifies db
      ensures db.online == old(db.online) && db.log == old(db.log)
      ensures db.contexts == if db.online then Checked(old(db.contexts), user, now) else old(db.contexts)
    {
      if db.online {
        db.contexts := Checked(db.contexts, user, now);
      }
    }

    /** `enable_for_user`: that user's rows get `heartbeat_enabled = 1` and the interval. */
    method EnableForUser(user: string, interval: Option<int>)
      modifies db
      ensures db.online == old(db.online) && db.log == old(db.log)
      ensures db.contexts == if db.online then Enabled(old(db.contexts), user, GivenOr(interval, defaultInterval))
                             else old(db.contexts)
    {
      var value := if interval.Some? && interval.value != 0 then interval.value else defaultInterval;
      if db.online {
        db.contexts := Enabled(db.contexts, user, value);
      }
    }

    /** `disable_for_user`: that user's rows get `heartbeat_enabled = 0`; the interval stays. */
    method DisableForUser(user: string)
      modifies db
      ensures db.online == old(db.online) && db.log == old(db.log)
      ensures db.contexts == if db.online then Disabled(old(db.contexts), user) else old(db.contexts)
    {
      if db.online {
        db.contexts := Disabled(db.contexts, user);
      }
    }

    /** `_run_heartbeat_for_user` at time `now`. A missing checklist is created first; a
        checklist that cannot be written or read escapes. After a successful reply the
        response is logged, then `last_heartbeat` is set, then the reply is classified. */
    method RunHeartbeatForUser(user: string, ws: Directory, process: ProcessMessage, now: int)
      returns (outcome: Turn)
      modifies ws, db
      ensures ws.present == old(ws.present) && db.online == old(db.online)
      ensures old(db.log) <= db.log
      ensures db.contexts == old(db.contexts) || db.contexts == Checked(old(db.contexts), user, now)
      ensures var effect := TurnEffect(user, old(ws.present), old(ws.files), process);
        && outcome == effect.outcome
        && ws.files == FilesAfter(user, old(ws.present), old(ws.files))
        && db.log == old(db.log) + TurnLog(user, effect.response, db.online)
        && db.contexts == if db.online && effect.response.Some? then Checked(old(db.contexts), user, now) else old(db.contexts)
      ensures var checklist := Checklist(user, old(ws.present), old(ws.files));
        match checklist
        case Failure(e) =>
          outcome == Escaped(e) && ws.files == old(ws.files)
          && db.log == old(db.log) && db.contexts == old(db.contexts)
        case Success(written) =>
          ws.files == written.0
          && match process(user, HeartbeatPrompt(written.1), "haiku")
             case Failure(e) =>
               outcome == Caught(e) && db.log == old(db.log) && db.contexts == old(db.contexts)
             case Success(result) =>
               var response := ResponseOf(result);
               && db.log == old(db.log) + (if db.online && Storable(response) then [LogEntry(user, response, ChecksRun)] else [])
               && db.contexts == (if db.online then Checked(old(db.contexts), user, now) else old(db.contexts))
               && outcome == Classify(response)
    {
      if HeartbeatFile !in ws.files {
        var error := CreateDefaultHeartbeat(user, ws);
        if error.Some? {
          return Escaped(error.value);
        }
      }
      var file := ws.files[HeartbeatFile];
      if file.Unreadable? {
        return Escaped(OSError(HeartbeatFile));
      }
      var prompt := HeartbeatPrompt(file.contents);
      var result := process(user, prompt, "haiku");
      if result.Failure? {
        return Caught(result.error);
      }
      var response := ResponseOf(result.value);
      LogHeartbeat(user, response);
      UpdateLastHeartbeat(user, now);
      outcome := Classify(response);
    }

    /** The `for` loop of `_run_loop`: every selected user gets a turn, in order, on the
        workspace as the earlier turns left it, whatever those turns returned. Each turn that
        got a reply appends its log entry and records its own clock reading, `clock(k)` for
        turn `k`, on all of that user's rows. */
    method RunTurns(users: seq<(string, int)>, workspaces: map<string, Directory>, process: ProcessMessage, clock: nat -> int)
      returns (turns: seq<(string, Turn)>)
      requires forall k :: 0 <= k < |users| ==> users[k].0 in workspaces
      modifies db, workspaces.Values
      ensures var round := Round(users, workspaces, old(Snapshot(workspaces)), Heartbeats(process));
        && round.Wf()
        && |turns| == |users|
        && (forall k {:trigger turns[k]} :: 0 <= k < |users| ==> turns[k] == (users[k].0, round.EffectAt(k).outcome))
        && db.log == old(db.log) + round.Log(db.online, |users|)
        && |db.contexts| == |old(db.contexts)|
        && (forall r :: 0 <= r < |db.contexts| ==>
              db.contexts[r] == RowAfter(round, db.online, |users|, old(db.contexts[r]), clock))
        && (forall u :: u in workspaces ==>
              DirState(workspaces[u].present, workspaces[u].files) == round.StateBefore(|users|, workspaces[u]))
      ensures db.online == old(db.online)
      ensures SameSettings(old(db.contexts), db.contexts)
    {
      ghost var round := Round(users, workspaces, Snapshot(workspaces), Heartbeats(process));
      SnapshotCovers(workspaces);
      assert round.Wf();
      ghost var rows := db.contexts;
      StartOfRound(round);
      HeartbeatsPlay(process);
      turns := PlayRound(users, workspaces, process, clock, round, rows, old(db.log));
      RowsAfterEach(round, db.online, |users|, rows, clock);
      RowsAfterSameSettings(round, db.online, rows, db.contexts, clock);
      OutcomesAt(round, |users|);
    }

    /** The loop of `RunTurns`: the turns of `round` in order, each played by `process` on the
        workspaces as the earlier turns left them, from the rows `rows` and the log `logged`
        the pass starts with. */
    method PlayRound(users: seq<(string, int)>, workspaces: map<string, Directory>, process: ProcessMessage, clock: nat -> int,
                     ghost round: Round, ghost rows: seq<Row>, ghost logged: seq<LogEntry>)
      returns (turns: seq<(string, Turn)>)
      requires round.users == users && round.workspaces == workspaces
      requires round.Wf() && Plays(round.rule, process)
      requires WorkspacesAt(round, 0)
      requires db.contexts == rows && db.log == logged
      modifies db, round.workspaces.Values
      ensures turns == round.Outcomes(|round.users|)
      ensures db.online == old(db.online)
      ensures db.log == logged + round.Log(db.online, |round.users|)
      ensures db.contexts == RowsAfter(round, db.online, |round.users|, rows, clock)
      ensures WorkspacesAt(round, |round.users|)
    {
      turns := [];
      var i := 0;
      while i < |users|
        invariant 0 <= i <= |users|
        invariant turns == round.Outcomes(i)
        invariant db.online == old(db.online)
        invariant db.log == logged + round.Log(db.online, i)
        invariant db.contexts == RowsAfter(round, db.online, i, rows, clock)
        invariant WorkspacesAt(round, i)
      {
        var user := users[i].0;
        var ws := workspaces[user];
        assert ws in workspaces.Values;
        var outcome := TakeTurn(round, i, user, ws, process, clock, rows, logged);
        turns := turns + [(user, outcome)];
        i := i + 1;
      }
    }

    /** Turn `i` of `round`, the body of the `for` loop: the user's turn on their workspace
        as the earlier turns left it. */
    method TakeTurn(ghost round: Round, i: nat, user: string, ws: Directory, process: ProcessMessage, clock: nat -> int,
                    ghost rows: seq<Row>, ghost logged: seq<LogEntry>)
      returns (outcome: Turn)
      requires round.Wf() && i < |round.users| && user == round.users[i].0
      requires ws == round.workspaces[user] && Plays(round.rule, process)
      requires WorkspacesAt(round, i)
      requires db.contexts == RowsAfter(round, db.online, i, rows, clock)
      requires db.log == logged + round.Log(db.online, i)
      modifies ws, db
      ensures outcome == round.EffectAt(i).outcome
      ensures round.Outcomes(i + 1) == round.Outcomes(i) + [(user, outcome)]
      ensures db.online == old(db.online)
      ensures db.log == logged + round.Log(db.online, i + 1)
      ensures db.contexts == RowsAfter(round, db.online, i + 1, rows, clock)
      ensures WorkspacesAt(round, i + 1)
    {
      assert DirState(ws.present, ws.files) == round.StateAt(i);
      TurnStep(round, process, db.online, i, rows, clock, ws.present, ws.files);
      ghost var effect := TurnEffect(user, ws.present, ws.files, process);
      outcome := RunHeartbeatForUser(user, ws, process, clock(i));
      AppendAssociates(logged, round.Log(db.online, i), TurnLog(user, effect.response, db.online));
    }

    /** One pass of `_run_loop`'s body: select the users due at `now`, give each a turn, and
        sleep for the shortest of their intervals. Turn `k` records its own later reading of
        the clock, `clock(k)`. */
    method Pass(now: int, workspaces: map<string, Directory>, process: ProcessMessage, clock: nat -> int)
      returns (turns: seq<(string, Turn)>, sleep: int)
      requires forall k :: 0 <= k < |db.contexts| ==> db.contexts[k].user in workspaces
      modifies db, workspaces.Values
      ensures var users := if old(db.online) then DueUsers(old(db.contexts), now, defaultInterval) else [];
        var round := Round(users, workspaces, old(Snapshot(workspaces)), Heartbeats(process));
        && round.Wf()
        && sleep == NextSleep(users, defaultInterval)
        && |turns| == |users|
        && (forall k {:trigger turns[k]} :: 0 <= k < |users| ==> turns[k] == (users[k].0, round.EffectAt(k).outcome))
        && db.log == old(db.log) + round.Log(db.online, |users|)
        && |db.contexts| == |old(db.contexts)|
        && (forall r :: 0 <= r < |db.contexts| ==>
              db.contexts[r] == RowAfter(round, db.online, |users|, old(db.contexts[r]), clock))
        && (forall u :: u in workspaces ==>
              DirState(workspaces[u].present, workspaces[u].files) == round.StateBefore(|users|, workspaces[u]))
      ensures db.online == old(db.online)
      ensures SameSettings(old(db.contexts), db.contexts)
    {
      var users := GetUsersForHeartbeat(now);
      DueUsersHaveRows(db.contexts, now, defaultInterval);
      assert forall k :: 0 <= k < |users| ==> users[k] in users;
      turns := RunTurns(users, workspaces, process, clock);
      sleep := NextSleep(users, defaultInterval);
    }
  }

  /** The checklist step of a turn: the files afterwards and the checklist text, or the
      exception writing or reading `HEARTBEAT.md` raises. */
  function Checklist(user: string, present: bool, files: map<string, File>): Result<(map<string, File>, string)>
  {
    if HeartbeatFile in files then
      if files[HeartbeatFile].Unreadable? then Failure(OSError(HeartbeatFile))
      else Success((files, files[HeartbeatFile].contents))
    else if !present then Failure(OSError(HeartbeatFile))
    else Success((files[HeartbeatFile := Text(DefaultChecklist(user))], DefaultChecklist(user)))
  }

  /** What a turn leaves in the workspace: the checklist it created, or the files unchanged. */
  function FilesAfter(user: string, present: bool, files: map<string, File>): map<string, File>
  {
    match Checklist(user, present, files)
    case Success(written) => written.0
    case Failure(_) => files
  }

  /** What `_run_heartbeat_for_user` gives back and what it logs and records: the outcome,
      and the response, or `None` when the checklist step or `process_message` raised. */
  datatype Effect = Effect(outcome: Turn, response: Option<Json>)

  /** The effect of a turn on a workspace in the given state. */
  function TurnEffect(user: string, present: bool, files: map<string, File>, process: ProcessMessage): Effect
  {
    match Checklist(user, present, files)
    case Failure(e) => Effect(Escaped(e), None)
    case Success(written) =>
      match process(user, HeartbeatPrompt(written.1), "haiku")
      case Failure(e) => Effect(Caught(e), None)
      case Success(result) => Effect(Classify(ResponseOf(result)), Some(ResponseOf(result)))
  }

  /** What a turn appends to `heartbeat_log`. */
  function TurnLog(user: string, response: Option<Json>, online: bool): seq<LogEntry>
  {
    if online && response.Some? && Storable(response.value) then [LogEntry(user, response.value, ChecksRun)] else []
  }

  /** `process_message` as server/assistant.py declares it: it has no `model_hint` parameter,
      so the call in `_run_heartbeat_for_user` raises TypeError before anything runs. */
  function RejectsHint(user: string, message: string, hint: string): Result<seq<(string, Json)>>
  {
    Failure(TypeError("process_message() got an unexpected keyword argument 'model_hint'"))
  }

  /** With that `process_message` no turn gets a reply: a pass logs nothing and records no
      check time, so every user it selected is due again on the next pass. */
  lemma {:induction false} HintRejectedRecordsNothing(round: Round, online: bool, n: nat, rows: seq<Row>, clock: nat -> int)
    requires round.Wf() && n <= |round.users| && Plays(round.rule, RejectsHint)
    ensures forall k :: 0 <= k < n ==> round.EffectAt(k).response.None?
    ensures round.Log(online, n) == []
    ensures RowsAfter(round, online, n, rows, clock) == rows
  {
    if n > 0 {
      HintRejectedRecordsNothing(round, online, n - 1, rows, clock);
      assert Agrees(round.rule, RejectsHint, round.users[n - 1].0, round.StateAt(n - 1));
    }
  }

  /** Appending to a log that already has entries appended. */
  lemma AppendAssociates<T>(a: seq<T>, b: seq<T>, c: seq<T>)
    ensures (a + b) + c == a + (b + c)
  {
  }

  /** A workspace directory's state. */
  datatype DirState = DirState(present: bool, files: map<string, File>)

  /** Every workspace directory is in the state the first `n` turns of `round` leave it in. */
  ghost predicate WorkspacesAt(round: Round, n: nat)
    requires round.Wf() && n <= |round.users|
    reads round.workspaces.Values
  {
    forall u :: u in round.workspaces ==>
      DirState(round.workspaces[u].present, round.workspaces[u].files) == round.StateBefore(n, round.workspaces[u])
  }

  /** The state of every workspace directory. */
  function Snapshot(workspaces: map<string, Directory>): map<Directory, DirState>
    reads workspaces.Values
  {
    map d | d in workspaces.Values :: DirState(d.present, d.files)
  }

  /** What a turn does, given its user and the state of its workspace directory: its effect,
      and the files it leaves there. */
  datatype TurnRule = TurnRule(effect: (string, DirState) -> Effect, files: (string, DirState) -> map<string, File>)

  /** The rule of `_run_heartbeat_for_user` with the given `process_message`. */
  function Heartbeats(process: ProcessMessage): TurnRule
  {
    TurnRule((user: string, s: DirState) => TurnEffect(user, s.present, s.files, process),
             (user: string, s: DirState) => FilesAfter(user, s.present, s.files))
  }

  /** `rule` does what a turn of `_run_heartbeat_for_user` with `process` does, in every state. */
  ghost predicate Plays(rule: TurnRule, process: ProcessMessage)
  {
    forall user: string, s: DirState :: Agrees(rule, process, user, s)
  }

  /** `rule` does what a turn does for `user` on a workspace in state `s`. */
  ghost predicate Agrees(rule: TurnRule, process: ProcessMessage, user: string, s: DirState)
  {
    && rule.effect(user, s) == TurnEffect(user, s.present, s.files, process)
    && rule.files(user, s) == FilesAfter(user, s.present, s.files)
  }

  /** The rule `Heartbeats(process)` is the turn of `process`. */
  lemma HeartbeatsPlay(process: ProcessMessage)
    ensures Plays(Heartbeats(process), process)
  {
    forall user: string, s: DirState
      ensures Agrees(Heartbeats(process), process, user, s)
    {
    }
  }

  /** One pass of the loop: the selected users in order, each user's workspace directory, the
      directories' states when the pass starts, and what a turn does. Two turns share a
      directory when the same user is selected twice or two users share a workspace. */
  datatype Round = Round(users: seq<(string, int)>, workspaces: map<string, Directory>,
                         start: map<Directory, DirState>, rule: TurnRule)
  {
    predicate Wf()
    {
      && (forall k :: 0 <= k < |users| ==> users[k].0 in workspaces)
      && (forall u :: u in workspaces ==> workspaces[u] in start)
    }

    /** The state of `d` before turn `k`: its state at the start, changed by every earlier
        turn whose workspace it is. */
    function StateBefore(k: nat, d: Directory): DirState
      requires Wf() && k <= |users| && d in start
    {
      if k == 0 then start[d]
      else
        var s := StateBefore(k - 1, d);
        var user := users[k - 1].0;
        if workspaces[user] == d then DirState(s.present, rule.files(user, s)) else s
    }

    /** The state of turn `k`'s own workspace before that turn. */
    function StateAt(k: nat): DirState
      requires Wf() && k < |users|
    {
      StateBefore(k, workspaces[users[k].0])
    }

    /** The effect of turn `k`. */
    function EffectAt(k: nat): Effect
      requires Wf() && k < |users|
    {
      rule.effect(users[k].0, StateAt(k))
    }

    /** The labelled outcomes of the first `n` turns, in order. */
    function Outcomes(n: nat): seq<(string, Turn)>
      requires Wf() && n <= |users|
    {
      if n == 0 then [] else Outcomes(n - 1) + [(users[n - 1].0, EffectAt(n - 1).outcome)]
    }

    /** The log entries of the first `n` turns, in order. */
    function Log(online: bool, n: nat): seq<LogEntry>
      requires Wf() && n <= |users|
    {
      if n == 0 then [] else Log(online, n - 1) + TurnLog(users[n - 1].0, EffectAt(n - 1).response, online)
    }

    /** Whether one of the first `n` turns of `user` got a reply, and so recorded its time. */
    predicate Recorded(n: nat, user: string)
      requires Wf() && n <= |users|
    {
      exists j :: 0 <= j < n && users[j].0 == user && EffectAt(j).response.Some?
    }
  }

  /** Row `row` after the first `n` turns of `round`: turn `k` of the row's user that got a
      reply sets `last_heartbeat` to its own clock reading `clock(k)`. */
  function RowAfter(round: Round, online: bool, n: nat, row: Row, clock: nat -> int): Row
    requires round.Wf() && n <= |round.users|
  {
    if n == 0 then row
    else
      var before := RowAfter(round, online, n - 1, row, clock);
      if online && round.users[n - 1].0 == row.user && round.EffectAt(n - 1).response.Some?
      then before.(last := Some(clock(n - 1)))
      else before
  }

  /** Turn `j` is the last of the first `n` turns of `round` in which `user` got a reply. */
  predicate LastReply(round: Round, n: nat, user: string, j: nat)
    requires round.Wf() && n <= |round.users|
  {
    && j < n && round.users[j].0 == user && round.EffectAt(j).response.Some?
    && forall k :: j < k < n && round.users[k].0 == user ==> round.EffectAt(k).response.None?
  }

  /** After the first `n` turns, a row keeps its settings; it is unchanged unless the database
      is online and a turn of its user got a reply, and then its `last_heartbeat` is the clock
      reading of the last such turn. */
  lemma RowAfterRecorded(round: Round, online: bool, n: nat, row: Row, clock: nat -> int)
    requires round.Wf() && n <= |round.users|
    ensures var after := RowAfter(round, online, n, row, clock);
      && after.user == row.user && after.enabled == row.enabled && after.interval == row.interval
      && (!(online && round.Recorded(n, row.user)) ==> after == row)
      && (online && round.Recorded(n, row.user) ==>
            var j := LastReplyAt(round, n, row.user);
            LastReply(round, n, row.user, j) && after == row.(last := Some(clock(j))))
  {
    RowAfterUnrecorded(round, online, n, row, clock);
    if online && round.Recorded(n, row.user) {
      LastReplyAtIsLast(round, n, row.user);
      RowAfterLastReply(round, n, row, clock);
    }
  }

  /** The index of the last of the first `n` turns in which `user` got a reply. */
  function LastReplyAt(round: Round, n: nat, user: string): nat
    requires round.Wf() && n <= |round.users| && round.Recorded(n, user)
  {
    RecordedStep(round, n - 1, user);
    if round.users[n - 1].0 == user && round.EffectAt(n - 1).response.Some? then n - 1
    else LastReplyAt(round, n - 1, user)
  }

  /** `LastReplyAt` is what its name says. */
  lemma {:induction false} LastReplyAtIsLast(round: Round, n: nat, user: string)
    requires round.Wf() && n <= |round.users| && round.Recorded(n, user)
    ensures LastReply(round, n, user, LastReplyAt(round, n, user))
  {
    RecordedStep(round, n - 1, user);
    if !(round.users[n - 1].0 == user && round.EffectAt(n - 1).response.Some?) {
      LastReplyAtIsLast(round, n - 1, user);
    }
  }

  /** Without a recorded reply the row is as it was; with one, only `last_heartbeat` changed. */
  lemma {:induction false} RowAfterUnrecorded(round: Round, online: bool, n: nat, row: Row, clock: nat -> int)
    requires round.Wf() && n <= |round.users|
    ensures var after := RowAfter(round, online, n, row, clock);
      && after == row.(last := after.last)
      && (!(online && round.Recorded(n, row.user)) ==> after == row)
  {
    if n > 0 {
      RowAfterUnrecorded(round, online, n - 1, row, clock);
      RecordedStep(round, n - 1, row.user);
    }
  }

  /** With the database online, a recorded user's row carries the last replying turn's time. */
  lemma {:induction false} RowAfterLastReply(round: Round, n: nat, row: Row, clock: nat -> int)
    requires round.Wf() && n <= |round.users| && round.Recorded(n, row.user)
    ensures RowAfter(round, true, n, row, clock) == row.(last := Some(clock(LastReplyAt(round, n, row.user))))
  {
    RecordedStep(round, n - 1, row.user);
    if round.users[n - 1].0 == row.user && round.EffectAt(n - 1).response.Some? {
      RowAfterUnrecorded(round, true, n - 1, row, clock);
    } else {
      RowAfterLastReply(round, n - 1, row, clock);
    }
  }

  /** A second turn on a workspace the same user's turn already prepared finds the checklist
      it left, and so has the same outcome and response and changes nothing more. */
  lemma RepeatedTurn(user: string, present: bool, files: map<string, File>, process: ProcessMessage)
    ensures var after := FilesAfter(user, present, files);
      && FilesAfter(user, present, after) == after
      && TurnEffect(user, present, after, process) == TurnEffect(user, present, files, process)
  {
  }

  /** Before turn `k`, a directory that only `user`'s turns use is either as the pass found it
      or as `user`'s first turn left it. */
  lemma {:induction false} OwnStateBefore(round: Round, process: ProcessMessage, k: nat, d: Directory, user: string)
    requires round.Wf() && round.rule == Heartbeats(process) && k <= |round.users| && d in round.start
    requires forall j :: 0 <= j < k && round.workspaces[round.users[j].0] == d ==> round.users[j].0 == user
    ensures var s := round.start[d];
      round.StateBefore(k, d) == s || round.StateBefore(k, d) == DirState(s.present, FilesAfter(user, s.present, s.files))
  {
    if k > 0 {
      OwnStateBefore(round, process, k - 1, d, user);
      var s := round.start[d];
      RepeatedTurn(user, s.present, s.files, process);
    }
  }

  /** When no other user's turn shares its workspace, a turn has the outcome and response it
      would have on the workspace as the pass found it, whatever earlier turns returned. */
  lemma OwnWorkspaceTurn(round: Round, process: ProcessMessage, k: nat)
    requires round.Wf() && round.rule == Heartbeats(process) && k < |round.users|
    requires forall j :: 0 <= j < k && round.workspaces[round.users[j].0] == round.workspaces[round.users[k].0] ==>
      round.users[j].0 == round.users[k].0
    ensures var user := round.users[k].0;
      var s := round.start[round.workspaces[user]];
      round.EffectAt(k) == TurnEffect(user, s.present, s.files, process)
  {
    var user := round.users[k].0;
    var s := round.start[round.workspaces[user]];
    OwnStateBefore(round, process, k, round.workspaces[user], user);
    RepeatedTurn(user, s.present, s.files, process);
  }

  /** Turn `n` of `round`, played by `process`, in terms of the turns before it. */
  lemma TurnStep(round: Round, process: ProcessMessage, online: bool, n: nat, rows: seq<Row>, clock: nat -> int,
                  present: bool, files: map<string, File>)
    requires round.Wf() && n < |round.users| && Plays(round.rule, process)
    requires DirState(present, files) == round.StateAt(n)
    ensures var user := round.users[n].0;
      var effect := TurnEffect(user, present, files, process);
      && round.EffectAt(n) == effect
      && round.Outcomes(n + 1) == round.Outcomes(n) + [(user, effect.outcome)]
      && round.Log(online, n + 1) == round.Log(online, n) + TurnLog(user, effect.response, online)
      && RowsAfter(round, online, n + 1, rows, clock)
         == (if online && effect.response.Some? then Checked(RowsAfter(round, online, n, rows, clock), user, clock(n))
             else RowsAfter(round, online, n, rows, clock))
      && (forall d :: d in round.start ==>
            round.StateBefore(n + 1, d)
            == if d == round.workspaces[user] then DirState(present, FilesAfter(user, present, files)) else round.StateBefore(n, d))
  {
    assert Agrees(round.rule, process, round.users[n].0, round.StateAt(n));
  }

  lemma {:induction false} OutcomesAt(round: Round, n: nat)
    requires round.Wf() && n <= |round.users|
    ensures |round.Outcomes(n)| == n
    ensures forall k {:trigger round.Outcomes(n)[k]} :: 0 <= k < n ==>
      round.Outcomes(n)[k] == (round.users[k].0, round.EffectAt(k).outcome)
  {
    if n > 0 {
      OutcomesAt(round, n - 1);
    }
  }

  /** One more turn records `user` iff it did so before or this turn is `user`'s and got a reply. */
  lemma RecordedStep(round: Round, n: nat, user: string)
    requires round.Wf() && n < |round.users|
    ensures round.Recorded(n + 1, user) <==>
      round.Recorded(n, user) || (round.users[n].0 == user && round.EffectAt(n).response.Some?)
  {
    if round.Recorded(n + 1, user) && !round.Recorded(n, user) {
      var j :| 0 <= j < n + 1 && round.users[j].0 == user && round.EffectAt(j).response.Some?;
      assert j == n;
    }
  }

  /** Before the first turn of `round`, every directory is as the snapshot found it and no
      row has changed. */
  lemma StartOfRound(round: Round)
    requires round.Wf() && round.start == Snapshot(round.workspaces)
    ensures forall u :: u in round.workspaces ==>
      DirState(round.workspaces[u].present, round.workspaces[u].files) == round.StateBefore(0, round.workspaces[u])
  {
  }

  /** Every workspace directory has a state in the snapshot. */
  lemma SnapshotCovers(workspaces: map<string, Directory>)
    ensures forall u :: u in workspaces ==> workspaces[u] in Snapshot(workspaces)
  {
    forall u | u in workspaces
      ensures workspaces[u] in Snapshot(workspaces)
    {
      assert workspaces[u] in workspaces.Values;
    }
  }

  /** Recording check times never changes who is enabled or their interval. */
  lemma RowsAfterSameSettings(round: Round, online: bool, rows: seq<Row>, after: seq<Row>, clock: nat -> int)
    requires round.Wf()
    requires |after| == |rows| && forall r :: 0 <= r < |rows| ==> after[r] == RowAfter(round, online, |round.users|, rows[r], clock)
    ensures SameSettings(rows, after)
  {
    forall r | 0 <= r < |rows|
      ensures after[r].user == rows[r].user && after[r].enabled == rows[r].enabled && after[r].interval == rows[r].interval
    {
      RowAfterRecorded(round, online, |round.users|, rows[r], clock);
    }
  }

  /** The contexts table after the first `n` turns of `round`: every turn that got a reply
      records its clock reading on its user's rows, as `_update_last_heartbeat` does. */
  function RowsAfter(round: Round, online: bool, n: nat, rows: seq<Row>, clock: nat -> int): seq<Row>
    requires round.Wf() && n <= |round.users|
  {
    if n == 0 then rows
    else
      var before := RowsAfter(round, online, n - 1, rows, clock);
      if online && round.EffectAt(n - 1).response.Some? then Checked(before, round.users[n - 1].0, clock(n - 1)) else before
  }

  /** Row by row, the table after `n` turns holds what `RowAfter` says of each row. */
  lemma {:induction false} RowsAfterEach(round: Round, online: bool, n: nat, rows: seq<Row>, clock: nat -> int)
    requires round.Wf() && n <= |round.users|
    ensures |RowsAfter(round, online, n, rows, clock)| == |rows|
    ensures forall r :: 0 <= r < |rows| ==> RowsAfter(round, online, n, rows, clock)[r] == RowAfter(round, online, n, rows[r], clock)
  {
    if n > 0 {
      RowsAfterEach(round, online, n - 1, rows, clock);
      forall r | 0 <= r < |rows|
        ensures RowsAfter(round, online, n, rows, clock)[r] == RowAfter(round, online, n, rows[r], clock)
      {
        RowAfterRecorded(round, online, n - 1, rows[r], clock);
      }
    }
  }

  /** Same users, same `heartbeat_enabled` and same intervals, row by row. */
  predicate SameSettings(before: seq<Row>, after: seq<Row>)
  {
    |before| == |after| && forall k :: 0 <= k < |before| ==>
      after[k].user == before[k].user && after[k].enabled == before[k].enabled && after[k].interval == before[k].interval
  }

  /** Recording a check keeps every row's settings. */
  lemma CheckedSameSettings(origin: seq<Row>, before: seq<Row>, after: seq<Row>, user: string, now: int)
    requires SameSettings(origin, before)
    requires after == before || after == Checked(before, user, now)
    ensures SameSettings(origin, after)
  {
  }
}
