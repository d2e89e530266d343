/** The trace task identifiers declared in Events.cs, one per channel. */
module Tasks {

  import opened Wrappers

  datatype Task = Create | Rename | Update | Delete | Error

  /** The numeric `EventTask` value the program assigns to each task. */
  function Id(t: Task): (id: int)
    ensures 1 <= id <= 5
  {
    match t
    case Create => 1
    case Rename => 2
    case Update => 3
    case Delete => 4
    case Error => 5
  }

  /** The task a numeric identifier stands for, if any. */
  function FromId(id: int): Option<Task>
  {
    if id == 1 then Some(Create)
    else if id == 2 then Some(Rename)
    else if id == 3 then Some(Update)
    else if id == 4 then Some(Delete)
    else if id == 5 then Some(Error)
    else None
  }

  /** The identifiers are pairwise distinct, and each one decodes back to its task. */
  lemma IdsAreDistinct(a: Task, b: Task)
    ensures Id(a) == Id(b) <==> a == b
    ensures FromId(Id(a)) == Some(a)
  {
  }

  /** Exactly the identifiers 1 to 5 name a task. */
  lemma FromIdIsExact(id: int)
    ensures FromId(id).Some? <==> 1 <= id <= 5
    ensures FromId(id).Some? ==> Id(FromId(id).value) == id
  {
  }
}
