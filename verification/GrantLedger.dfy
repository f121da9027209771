/** The capability grants of the current task, the copies of them on disk, and what was spent. */
module GrantLedger {

  datatype Capability = ReadFile | WriteFile | ApplyPatch | RunCommand | McpTool | Network | Browser

  datatype Scope = Once | Task | Session

  /** A grant as the program stores it is only a scope; `id` names the act of granting, so that one can
      say how often it was used. No branch of the model reads it. */
  datatype Grant = Grant(scope: Scope, id: nat)

  type TaskId = string

  type Grants = map<Capability, Grant>

  datatype Ledger = Ledger(
    taskId: TaskId,
    grants: Grants,
    saved: map<TaskId, Grants>,
    spent: seq<nat>,
    nextId: nat)
  {
    /** Writing the task document to disk. */
    function Persist(): Ledger {
      this.(saved := saved[taskId := grants])
    }

    function Put(c: Capability, scope: Scope): Ledger {
      this.(grants := grants[c := Grant(scope, nextId)], nextId := nextId + 1)
    }

    /** What an edit loop asks for: task scope, unless the capability already has a wider grant. */
    function PutTask(c: Capability): Ledger {
      if c in grants && grants[c].scope != Once then this else Put(c, Task)
    }

    function Remove(c: Capability): Ledger {
      this.(grants := grants - {c})
    }

    /** Relying on a grant: a once-scoped one is taken away and counted as spent. */
    function Use(c: Capability): Ledger
      requires c in grants
    {
      if grants[c].scope == Once then Remove(c).(spent := spent + [grants[c].id]) else this
    }

    function NewTask(id: TaskId): Ledger {
      Persist().(taskId := id, grants := map[])
    }

    /** A fork saves the parent and goes on under a new id with a copy of its grants. */
    function Fork(id: TaskId): Ledger {
      Persist().(taskId := id)
    }

    function Resume(id: TaskId): Ledger
      requires id in saved
    {
      this.(taskId := id, grants := saved[id])
    }
  }

  /** Task `t` has the once-scoped grant `id` for `c`, in memory or on disk. */
  ghost predicate Holds(l: Ledger, t: TaskId, c: Capability, id: nat) {
    || (t == l.taskId && c in l.grants && l.grants[c] == Grant(Once, id))
    || (t in l.saved && c in l.saved[t] && l.saved[t][c] == Grant(Once, id))
  }

  ghost predicate Unspent(l: Ledger) {
    forall t, c, id: nat :: Holds(l, t, c, id) ==> id < l.nextId && id !in l.spent
  }

  /** No once-scoped grant is available in two places. */
  ghost predicate Exclusive(l: Ledger) {
    forall t, c, t', c', id: nat :: Holds(l, t, c, id) && Holds(l, t', c', id) ==> t == t' && c == c'
  }

  ghost predicate SpentOnce(l: Ledger) {
    && (forall i, j :: 0 <= i < j < |l.spent| ==> l.spent[i] != l.spent[j])
    && forall i :: 0 <= i < |l.spent| ==> l.spent[i] < l.nextId
  }

  ghost predicate Sound(l: Ledger) {
    Unspent(l) && Exclusive(l) && SpentOnce(l)
  }

  lemma PersistSound(l: Ledger)
    requires Sound(l)
    ensures Sound(l.Persist())
  {
    assert forall t, c, id :: Holds(l.Persist(), t, c, id) ==> Holds(l, t, c, id);
  }

  lemma RemoveSound(l: Ledger, c: Capability)
    requires Sound(l)
    ensures Sound(l.Remove(c))
  {
    assert forall t, c', id :: Holds(l.Remove(c), t, c', id) ==> Holds(l, t, c', id);
  }

  lemma PutSound(l: Ledger, c: Capability, scope: Scope)
    requires Sound(l)
    ensures Sound(l.Put(c, scope))
  {
    var after := l.Put(c, scope);
    assert forall t, c', id :: Holds(after, t, c', id) ==>
             Holds(l, t, c', id) || (t == l.taskId && c' == c && id == l.nextId);
    assert forall i :: 0 <= i < |l.spent| ==> l.spent[i] < l.nextId;
    assert l.nextId !in l.spent;
  }

  /** Spending is safe because the document is written back before anything can reload it. */
  lemma UseSound(l: Ledger, c: Capability)
    requires Sound(l) && c in l.grants
    ensures Sound(l.Use(c).Persist())
  {
    var after := l.Use(c).Persist();
    var id := l.grants[c].id;
    assert forall t, c', id' :: Holds(after, t, c', id') ==> Holds(l, t, c', id');
    if l.grants[c].scope == Once {
      assert Holds(l, l.taskId, c, id);
      forall t, c' ensures Holds(after, t, c', id) ==> t == l.taskId && c' == c {
      }
    }
  }

  lemma NewTaskSound(l: Ledger, id: TaskId)
    requires Sound(l) && id != l.taskId && id !in l.saved
    ensures Sound(l.NewTask(id))
  {
    assert forall t, c, g :: Holds(l.NewTask(id), t, c, g) ==> Holds(l, t, c, g);
  }

  lemma ResumeSound(l: Ledger, id: TaskId)
    requires Sound(l) && id in l.saved
    ensures Sound(l.Resume(id))
  {
    assert forall t, c, g :: Holds(l.Resume(id), t, c, g) ==> Holds(l, t, c, g);
  }

  ghost predicate NoOnceGrant(l: Ledger) {
    forall c :: c in l.grants ==> l.grants[c].scope != Once
  }

  /** Forking is safe exactly when the task has no once-scoped grant at that moment. */
  lemma ForkSoundIff(l: Ledger, id: TaskId)
    requires Sound(l) && id != l.taskId && id !in l.saved
    ensures Sound(l.Fork(id)) <==> NoOnceGrant(l)
  {
    var after := l.Fork(id);
    if NoOnceGrant(l) {
      assert forall t, c, g :: Holds(after, t, c, g) ==> Holds(l, t, c, g);
    } else {
      var c :| c in l.grants && l.grants[c].scope == Once;
      var g := l.grants[c].id;
      assert Holds(after, id, c, g) && Holds(after, l.taskId, c, g);
    }
  }

  /** What a fork puts at risk: a grant used in the fork and used again after resuming the parent. That
      is all right exactly when the grant is not once-scoped. */
  lemma ForkedUseIff(l: Ledger, child: TaskId, c: Capability)
    requires Sound(l) && c in l.grants && child != l.taskId
    ensures var used := l.Fork(child).Use(c).Persist();
            && l.taskId in used.saved
            && c in used.Resume(l.taskId).grants
            && (SpentOnce(used.Resume(l.taskId).Use(c)) <==> l.grants[c].scope != Once)
  {
    var used := l.Fork(child).Use(c).Persist();
    var again := used.Resume(l.taskId).Use(c);
    if l.grants[c].scope == Once {
      var n := |l.spent|;
      assert again.spent[n] == again.spent[n + 1];
    } else {
      assert again.spent == l.spent;
    }
  }
}
