/** The in-memory task registry: a dict from task ids to task dicts, with no cron engine
    behind it. Ids come from `uuid4`, so the caller supplies them here. */
module SimpleScheduler {
  import opened Prelude
  import opened Strings

  /** Items with pairwise different keys, as the items of a Python dict are. */
  ghost predicate IsDict(items: seq<(string, Json)>)
  {
    forall i, j :: 0 <= i < j < |items| ==> items[i].0 != items[j].0
  }

  /** `del d[key]` on a dict's items: the item with that key is gone, the rest keep their order. */
  function Delete(items: seq<(string, Json)>, key: string): (r: seq<(string, Json)>)
    ensures |r| <= |items|
    ensures forall k :: 0 <= k < |r| ==> r[k] in items && r[k].0 != key
  {
    if items == [] then []
    else if items[0].0 == key then Delete(items[1..], key)
    else [items[0]] + Delete(items[1..], key)
  }

  /** After `del d[key]` the key is absent and every other key maps to what it did. */
  lemma {:induction false} DeleteLookup(items: seq<(string, Json)>, key: string)
    ensures Get(Delete(items, key), key).None?
    ensures forall k :: k != key ==> Get(Delete(items, key), k) == Get(items, k)
  {
    var r := Delete(items, key);
    GetAbsent(r, key);
    if items != [] {
      DeleteLookup(items[1..], key);
    }
  }

  lemma {:induction false} DeleteKeepsDict(items: seq<(string, Json)>, key: string)
    requires IsDict(items)
    ensures IsDict(Delete(items, key))
  {
    if items != [] {
      assert IsDict(items[1..]) by {
        forall i, j | 0 <= i < j < |items[1..]| ensures items[1..][i].0 != items[1..][j].0 {
          assert items[1..][i] == items[i + 1] && items[1..][j] == items[j + 1];
        }
      }
      DeleteKeepsDict(items[1..], key);
      if items[0].0 != key {
        var rest := Delete(items[1..], key);
        forall k | 0 <= k < |rest| ensures rest[k].0 != items[0].0 {
          var m :| 0 <= m < |items[1..]| && items[1..][m] == rest[k];
          assert items[m + 1] == rest[k];
        }
        var r := [items[0]] + rest;
        forall i, j | 0 <= i < j < |r| ensures r[i].0 != r[j].0 {
          if i > 0 {
            assert r[i] == rest[i - 1] && r[j] == rest[j - 1];
          } else {
            assert r[j] == rest[j - 1];
          }
        }
      }
    }
  }

  lemma {:induction false} PutKeepsDict(items: seq<(string, Json)>, key: string, value: Json)
    requires IsDict(items)
    ensures IsDict(Put(items, key, value))
  {
    GetAbsent(items, key);
    if Get(items, key).None? {
      var r := items + [(key, value)];
      forall i, j | 0 <= i < j < |r| ensures r[i].0 != r[j].0 {
        if j < |items| {
          assert r[i] == items[i] && r[j] == items[j];
        } else {
          assert r[i] == items[i];
        }
      }
    } else {
      var k :| 0 <= k < |items| && items[k].0 == key;
      PutInPlace(items, key, value, k);
      var r := Put(items, key, value);
      forall i, j | 0 <= i < j < |r| ensures r[i].0 != r[j].0 {
        assert r[i].0 == items[i].0 && r[j].0 == items[j].0;
      }
    }
  }

  /** Assigning to a key a dict already holds keeps every key in place. */
  lemma {:induction false} PutInPlace(items: seq<(string, Json)>, key: string, value: Json, k: nat)
    requires IsDict(items) && k < |items| && items[k].0 == key
    ensures |Put(items, key, value)| == |items|
    ensures forall i :: 0 <= i < |items| ==> Put(items, key, value)[i].0 == items[i].0
    decreases k
  {
    if k > 0 {
      assert items[0].0 != key;
      assert IsDict(items[1..]) by {
        forall i, j | 0 <= i < j < |items[1..]| ensures items[1..][i].0 != items[1..][j].0 {
          assert items[1..][i] == items[i + 1] && items[1..][j] == items[j + 1];
        }
      }
      PutInPlace(items[1..], key, value, k - 1);
      var r := Put(items, key, value);
      assert r == [items[0]] + Put(items[1..], key, value);
      forall i | 0 <= i < |items| ensures r[i].0 == items[i].0 {
        if i > 0 {
          assert r[i] == Put(items[1..], key, value)[i - 1];
        }
      }
    }
  }

  /** The values of a dict's items, in order. */
  function Values(items: seq<(string, Json)>): (r: seq<Json>)
    ensures |r| == |items| && forall k :: 0 <= k < |items| ==> r[k] == items[k].1
  {
    if items == [] then [] else [items[0].1] + Values(items[1..])
  }

  /** `task.get("user") == user` for a task dict. */
  predicate OwnedBy(task: Json, user: string)
  {
    task.JObject? && Get(task.fields, "user") == Some(JStr(user))
  }

  /** `[task for task in tasks.values() if task.get("user") == user]` */
  function UserTasks(tasks: seq<Json>, user: string): (r: seq<Json>)
    ensures |r| <= |tasks|
    ensures forall t :: t in r <==> t in tasks && OwnedBy(t, user)
    ensures forall t :: multiset(r)[t] == if OwnedBy(t, user) then multiset(tasks)[t] else 0
  {
    if tasks == [] then []
    else
      var rest := UserTasks(tasks[1..], user);
      assert tasks == [tasks[0]] + tasks[1..];
      if OwnedBy(tasks[0], user) then [tasks[0]] + rest else rest
  }

  /** The listing keeps the dict's order: listing two runs of values one after the other is
      listing each in turn. */
  lemma {:induction false} UserTasksConcat(a: seq<Json>, b: seq<Json>, user: string)
    ensures UserTasks(a + b, user) == UserTasks(a, user) + UserTasks(b, user)
    decreases |a|
  {
    if a == [] {
      assert a + b == b;
    } else {
      assert (a + b)[0] == a[0] && (a + b)[1..] == a[1..] + b;
      UserTasksConcat(a[1..], b, user);
    }
  }

  /** The dict `add_cron_task` stores; a missing description is `None`. */
  function CronRecord(user: string, cron: string, prompt: string, description: Option<string>): Json
  {
    JObject([("user", JStr(user)), ("cron", JStr(cron)), ("prompt", JStr(prompt)),
             ("description", if description.Some? then JStr(description.value) else JNull)])
  }

  /** The record holds exactly the four fields, in this order. */
  lemma CronRecordFields(user: string, cron: string, prompt: string, description: Option<string>)
    ensures var r := CronRecord(user, cron, prompt, description);
      && |r.fields| == 4
      && r.fields[0] == ("user", JStr(user)) && r.fields[1] == ("cron", JStr(cron))
      && r.fields[2] == ("prompt", JStr(prompt))
      && r.fields[3].0 == "description"
      && OwnedBy(r, user)
  {
    GetAt(CronRecord(user, cron, prompt, description).fields, 0, "user");
  }

  /** A cron task added for `user` is among the tasks listed for `user` afterwards. */
  lemma AddedCronTaskListed(tasks: seq<(string, Json)>, id: string, user: string, cron: string,
                            prompt: string, description: Option<string>)
    ensures var record := CronRecord(user, cron, prompt, description);
      record in UserTasks(Values(Put(tasks, id, record)), user)
  {
    var record := CronRecord(user, cron, prompt, description);
    var after := Put(tasks, id, record);
    CronRecordFields(user, cron, prompt, description);
    ValueOf(after, id);
  }

  /** The value a key maps to is one of the dict's values. */
  lemma {:induction false} ValueOf(items: seq<(string, Json)>, key: string)
    requires Get(items, key).Some?
    ensures Get(items, key).value in Values(items)
  {
    if items[0].0 != key {
      ValueOf(items[1..], key);
      assert Values(items) == [items[0].1] + Values(items[1..]);
    }
  }

  const NotSupported := "not supported"
  const NoCronMessage := "Cron " + NotSupported + " in simple scheduler"

  /** The answer of `get_next_run` says, in any letter case, that cron is not supported. */
  lemma NextRunSaysNotSupported()
    ensures Contains(Lower(NoCronMessage), "not supported")
  {
    LowerOfLower(NotSupported);
    LowerKeepsInfix("Cron ", NotSupported, " in simple scheduler");
  }

  /** `SimpleScheduler`: the tasks dict, as its items in insertion order. */
  class Scheduler {
    var tasks: seq<(string, Json)>

    ghost predicate Valid()
      reads this
    {
      IsDict(tasks) && forall k :: 0 <= k < |tasks| ==> tasks[k].1.JObject?
    }

    constructor ()
      ensures Valid() && tasks == []
    {
      tasks := [];
    }

    /** `start` only logs. */
    method Start()
      ensures tasks == old(tasks)
    {
    }

    /** `stop` only logs. */
    method Stop()
      ensures tasks == old(tasks)
    {
    }

    /** `add_task` under the id `newId` that `uuid4` produced: the task is stored under it,
        appended when the id is new, and every other id keeps its task. */
    method AddTask(task: Json, newId: string) returns (id: string)
      requires Valid() && task.JObject?
      modifies this
      ensures Valid()
      ensures id == newId && tasks == Put(old(tasks), id, task)
      ensures Get(tasks, id) == Some(task)
      ensures forall k :: k != id ==> Get(tasks, k) == Get(old(tasks), k)
      ensures Get(old(tasks), id).None? ==> tasks == old(tasks) + [(id, task)]
    {
      id := newId;
      PutKeepsDict(tasks, id, task);
      PutValues(tasks, id, task);
      tasks := Put(tasks, id, task);
    }

    /** `add_cron_task`: `add_task` with the four-field record. */
    method AddCronTask(user: string, cron: string, prompt: string, description: Option<string>, newId: string)
      returns (id: string)
      requires Valid()
      modifies this
      ensures Valid()
      ensures id == newId && tasks == Put(old(tasks), id, CronRecord(user, cron, prompt, description))
      ensures CronRecord(user, cron, prompt, description) in ListUserTasks(user)
    {
      id := AddTask(CronRecord(user, cron, prompt, description), newId);
      AddedCronTaskListed(old(tasks), id, user, cron, prompt, description);
    }

    /** `remove_task`: true exactly when the id was present; afterwards it is absent and
        every other id keeps its task, so removing it again gives false. */
    method RemoveTask(id: string) returns (removed: bool)
      requires Valid()
      modifies this
      ensures Valid()
      ensures removed == Get(old(tasks), id).Some?
      ensures tasks == Delete(old(tasks), id)
      ensures Get(tasks, id).None?
      ensures forall k :: k != id ==> Get(tasks, k) == Get(old(tasks), k)
    {
      DeleteLookup(tasks, id);
      if Get(tasks, id).Some? {
        DeleteKeepsDict(tasks, id);
        tasks := Delete(tasks, id);
        return true;
      }
      GetAbsent(tasks, id);
      DeleteAbsent(tasks, id);
      return false;
    }

    /** `list_user_tasks` */
    function ListUserTasks(user: string): seq<Json>
      reads this
    {
      UserTasks(Values(tasks), user)
    }

    /** `get_next_run`: the same answer for every expression, saying in any letter case
        that cron is not supported. */
    function GetNextRun(cronExpression: string): (r: string)
      ensures r == NoCronMessage && Contains(Lower(r), NotSupported)
    {
      NextRunSaysNotSupported();
      NoCronMessage
    }
  }

  /** Deleting a key that no item has changes nothing. */
  lemma {:induction false} DeleteAbsent(items: seq<(string, Json)>, key: string)
    requires forall j :: 0 <= j < |items| ==> items[j].0 != key
    ensures Delete(items, key) == items
  {
    if items != [] {
      DeleteAbsent(items[1..], key);
    }
  }

  /** Assignment keeps every dict value a dict when the new value is one. */
  lemma {:induction false} PutValues(items: seq<(string, Json)>, key: string, value: Json)
    requires value.JObject? && forall k :: 0 <= k < |items| ==> items[k].1.JObject?
    ensures forall k :: 0 <= k < |Put(items, key, value)| ==> Put(items, key, value)[k].1.JObject?
  {
    if items != [] && items[0].0 != key {
      PutValues(items[1..], key, value);
      var r := Put(items, key, value);
      assert r == [items[0]] + Put(items[1..], key, value);
      forall k | 0 <= k < |r| ensures r[k].1.JObject? {
        if k > 0 {
          assert r[k] == Put(items[1..], key, value)[k - 1];
        }
      }
    }
  }
}
