/** The task tracer: where outputs are kept between a task's completion and the reduction. */
module Tracer {
  import opened TaskTypes

  /** The tracer's content as a value: the specs, outputs included, of the own and of the tasks assigned by peers (`given`). */
  datatype Store = Store(local: map<Id, TaskSpec>, given: map<Id, TaskSpec>)

  const NoTasks := Store(map[], map[])

  function Imported(s: Store, t: Id, spec: TaskSpec): Store {
    if t in s.local then s else s.(local := s.local[t := spec])
  }

  function AssignedTo(s: Store, t: Id, spec: TaskSpec): Store {
    if t in s.given then s else s.(given := s.given[t := spec])
  }

  /** The own task takes precedence over an assigned one of the same id. */
  function Stored(s: Store, t: Id, output: string): Store {
    if t in s.local then s.(local := s.local[t := s.local[t].(output := output)])
    else if t in s.given then s.(given := s.given[t := s.given[t].(output := output)])
    else s
  }

  function Removed(s: Store, t: Id): Store {
    if t in s.local then s.(local := s.local - {t}) else s.(given := s.given - {t})
  }

  predicate Holds(s: Store, t: Id) { t in s.local || t in s.given }

  /** What a reader that asks for the own task first finds; empty if there is none. */
  function OutputOf(s: Store, t: Id): string {
    if t in s.local then s.local[t].output else if t in s.given then s.given[t].output else ""
  }

  class Task {
    const id: Id
    var spec: TaskSpec

    constructor (id: Id, spec: TaskSpec)
      ensures this.id == id && this.spec == spec
    {
      this.id, this.spec := id, spec;
    }
  }

  class TaskTracer {
    var local: map<Id, Task>
    var given: map<Id, Task>

    constructor ()
      ensures Valid() && Value() == NoTasks
    {
      local, given := map[], map[];
    }

    /** A task is listed under its own id, and never both as own and as assigned. */
    ghost predicate Valid()
      reads this
    {
      && (forall t | t in local :: local[t].id == t)
      && (forall t | t in given :: given[t].id == t)
      && (forall t | t in local && t in given :: local[t] != given[t])
    }

    ghost function Value(): Store
      reads this, local.Values, given.Values
    {
      Store(map t | t in local :: local[t].spec, map t | t in given :: given[t].spec)
    }

    lemma ValueAt(id: Id)
      ensures id in Value().local <==> id in local
      ensures id in Value().given <==> id in given
      ensures id in local ==> Value().local[id] == local[id].spec
      ensures id in given ==> Value().given[id] == given[id].spec
    {
    }

    method Import(task: Task) returns (ok: bool)
      requires Valid() && task !in given.Values
      modifies `local
      ensures Valid() && ok == !(task.id in old(local))
      ensures local == if task.id in old(local) then old(local) else old(local)[task.id := task]
      ensures Value() == Imported(old(Value()), task.id, task.spec)
    {
      if task.id in local { return false; }
      local := local[task.id := task];
      return true;
    }

    method Assigned(task: Task) returns (ok: bool)
      requires Valid() && task !in local.Values
      modifies `given
      ensures Valid() && ok == !(task.id in old(given))
      ensures given == if task.id in old(given) then old(given) else old(given)[task.id := task]
      ensures Value() == AssignedTo(old(Value()), task.id, task.spec)
    {
      if task.id in given { return false; }
      given := given[task.id := task];
      return true;
    }

    /** The task SetOutput writes to. */
    function Target(id: Id): set<Task>
      reads this
    {
      if id in local then {local[id]} else if id in given then {given[id]} else {}
    }

    /** Only the own task id has been given a new spec since. */
    twostate lemma OneLocal(id: Id)
      requires Valid() && unchanged(this) && id in local
      requires forall t | t in local && t != id :: unchanged(local[t])
      requires forall t | t in given :: unchanged(given[t])
      ensures Value() == Store(old(Value()).local[id := local[id].spec], old(Value()).given)
    {
      assert Value().given == old(Value()).given;
      assert Value().local == old(Value()).local[id := local[id].spec];
    }

    /** Only the assigned task id has been given a new spec since. */
    twostate lemma OneGiven(id: Id)
      requires Valid() && unchanged(this) && id in given
      requires forall t | t in local :: unchanged(local[t])
      requires forall t | t in given && t != id :: unchanged(given[t])
      ensures Value() == Store(old(Value()).local, old(Value()).given[id := given[id].spec])
    {
      assert Value().local == old(Value()).local;
      assert Value().given == old(Value()).given[id := given[id].spec];
    }

    method SetOutput(id: Id, output: string) returns (ok: bool)
      requires Valid()
      modifies Target(id)
      ensures Valid() && ok == (id in local || id in given)
      ensures id in local ==> local[id].spec == old(local[id].spec).(output := output)
      ensures id !in local && id in given ==> given[id].spec == old(given[id].spec).(output := output)
      ensures forall t | t in local && (t != id) :: local[t].spec == old(local[t].spec)
      ensures forall t | t in given && (t != id || id in local) :: given[t].spec == old(given[t].spec)
      ensures Value() == Stored(old(Value()), id, output)
    {
      ValueAt(id);
      hide Value;
      if id in local {
        local[id].spec := local[id].spec.(output := output);
        OneLocal(id);
        return true;
      }
      if id in given {
        given[id].spec := given[id].spec.(output := output);
        OneGiven(id);
        return true;
      }
      return false;
    }

    method Remove(id: Id) returns (ok: bool)
      requires Valid()
      modifies `local, `given
      ensures Valid() && ok == (id in old(local) || id in old(given))
      ensures local == old(local) - {id} && given == if id in old(local) then old(given) else old(given) - {id}
      ensures Value() == Removed(old(Value()), id)
    {
      if id in local {
        local := local - {id};
        return true;
      }
      if id in given {
        given := given - {id};
        return true;
      }
      assert Removed(Value(), id).given == Value().given;
      return false;
    }

    method GetLocal(id: Id) returns (task: Option<Task>)
      ensures task == if id in local then Some(local[id]) else None
    {
      return if id in local then Some(local[id]) else None;
    }

    method GetAssigned(id: Id) returns (task: Option<Task>)
      ensures task == if id in given then Some(given[id]) else None
    {
      return if id in given then Some(given[id]) else None;
    }
  }
}
