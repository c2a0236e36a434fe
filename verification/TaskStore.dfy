/** The in-memory task store (a2x/task-store.ts): terminal times, expiry, eviction and
    the rule that a terminal status is final. */
module TaskStore {
  import opened Options
  import opened OrderedMaps
  import opened Artifacts
  import opened Tasks
  import Paging

  /** The store's two maps: every task, and when each terminal task became terminal. */
  datatype Contents = Contents(tasks: OrderedMap<Task>, terminalTimestamps: OrderedMap<int>)

  predicate HasTerminal(c: Contents, id: string) {
    Get(c.tasks, id).Some? && IsTerminal(Get(c.tasks, id).value.status.state)
  }

  /** The timestamp index holds exactly the stored terminal tasks. */
  ghost predicate Inv(c: Contents) {
    && Unique(c.tasks) && Unique(c.terminalTimestamps)
    && forall id :: Get(c.terminalTimestamps, id).Some? <==> HasTerminal(c, id)
  }

  function Drop(c: Contents, id: string): Contents {
    Contents(Remove(c.tasks, id), Remove(c.terminalTimestamps, id))
  }

  lemma DropFacts(c: Contents, id: string)
    requires Inv(c)
    ensures var d := Drop(c, id);
            && Inv(d)
            && |d.tasks| == |c.tasks| - (if Get(c.tasks, id).Some? then 1 else 0)
            && forall k :: && Get(d.tasks, k) == (if k == id then None else Get(c.tasks, k))
                           && Get(d.terminalTimestamps, k) == (if k == id then None else Get(c.terminalTimestamps, k))
  {
    RemoveFacts(c.tasks, id);
    RemoveFacts(c.terminalTimestamps, id);
    GetKeys(c.tasks, id);
  }

  // ---- Expiry ------------------------------------------------------------------------------

  predicate IsExpired(c: Contents, id: string, ttl: Option<int>, now: int) {
    && ttl.Some? && Get(c.terminalTimestamps, id).Some?
    && now - Get(c.terminalTimestamps, id).value >= ttl.value
  }

  function Unless<T>(gone: bool, value: Option<T>): Option<T> {
    if gone then None else value
  }

  function ExpireOne(c: Contents, id: string, ttl: Option<int>, now: int): Contents {
    if IsExpired(c, id, ttl, now) then Drop(c, id) else c
  }

  function ExpireEach(c: Contents, ids: OrderedMap<int>, ttl: Option<int>, now: int): Contents
    decreases |ids|
  {
    if ids == [] then c else ExpireEach(ExpireOne(c, ids[0].0, ttl, now), ids[1..], ttl, now)
  }

  lemma {:induction false} ExpireEachFacts(c: Contents, ids: OrderedMap<int>, ttl: Option<int>, now: int)
    requires Inv(c) && Unique(ids)
    ensures var d := ExpireEach(c, ids, ttl, now);
            && Inv(d) && |d.tasks| <= |c.tasks|
            && forall k :: && Get(d.tasks, k) == Unless(k in Keys(ids) && IsExpired(c, k, ttl, now), Get(c.tasks, k))
                           && Get(d.terminalTimestamps, k) ==
                                Unless(k in Keys(ids) && IsExpired(c, k, ttl, now), Get(c.terminalTimestamps, k))
    decreases |ids|
  {
    if ids != [] {
      TailKeys(ids);
      DropFacts(c, ids[0].0);
      ExpireEachFacts(ExpireOne(c, ids[0].0, ttl, now), ids[1..], ttl, now);
    }
  }

  /** `_evictExpired`: the sweep removes exactly the terminal tasks whose time is up. */
  lemma SweepFacts(c: Contents, ttl: Option<int>, now: int)
    requires Inv(c)
    ensures var d := ExpireEach(c, c.terminalTimestamps, ttl, now);
            && Inv(d) && |d.tasks| <= |c.tasks|
            && forall k :: && Get(d.tasks, k) == Unless(IsExpired(c, k, ttl, now), Get(c.tasks, k))
                           && Get(d.terminalTimestamps, k) ==
                                Unless(IsExpired(c, k, ttl, now), Get(c.terminalTimestamps, k))
    ensures var d := ExpireEach(c, c.terminalTimestamps, ttl, now);
            forall k | Get(c.tasks, k).Some? ::
              Get(d.tasks, k).None? <==>
                HasTerminal(c, k) && ttl.Some? && Get(c.terminalTimestamps, k).value + ttl.value <= now
  {
    ExpireEachFacts(c, c.terminalTimestamps, ttl, now);
    forall k ensures Get(c.terminalTimestamps, k).Some? <==> k in Keys(c.terminalTimestamps) {
      GetKeys(c.terminalTimestamps, k);
    }
  }

  // ---- Capacity ------------------------------------------------------------------------------

  /** The stable sort by entry time. */
  function Insert(e: (string, int), sorted: OrderedMap<int>): OrderedMap<int> {
    if sorted == [] || e.1 < sorted[0].1 then [e] + sorted
    else [sorted[0]] + Insert(e, sorted[1..])
  }

  function ByTime(entries: OrderedMap<int>): OrderedMap<int> {
    if entries == [] then []
    else Insert(entries[|entries| - 1], ByTime(entries[..|entries| - 1]))
  }

  predicate Sorted(entries: OrderedMap<int>) {
    forall i, j | 0 <= i < j < |entries| :: entries[i].1 <= entries[j].1
  }

  lemma {:induction false} InsertMembers(e: (string, int), sorted: OrderedMap<int>)
    ensures multiset(Insert(e, sorted)) == multiset(sorted) + multiset{e}
  {
    if sorted != [] && e.1 >= sorted[0].1 {
      InsertMembers(e, sorted[1..]);
      assert sorted == [sorted[0]] + sorted[1..];
    }
  }

  lemma {:induction false} InsertFacts(e: (string, int), sorted: OrderedMap<int>)
    requires Sorted(sorted)
    ensures Sorted(Insert(e, sorted))
    ensures multiset(Insert(e, sorted)) == multiset(sorted) + multiset{e}
  {
    InsertMembers(e, sorted);
    if sorted != [] && e.1 >= sorted[0].1 {
      InsertFacts(e, sorted[1..]);
      var rest := Insert(e, sorted[1..]);
      forall j | 0 <= j < |rest| ensures sorted[0].1 <= rest[j].1 {
        assert rest[j] in multiset(rest);
        assert rest[j] == e || rest[j] in sorted[1..];
      }
    }
  }

  lemma {:induction false} ByTimeFacts(entries: OrderedMap<int>)
    ensures Sorted(ByTime(entries)) && multiset(ByTime(entries)) == multiset(entries)
  {
    if entries != [] {
      var last := |entries| - 1;
      ByTimeFacts(entries[..last]);
      InsertFacts(entries[last], ByTime(entries[..last]));
      assert entries == entries[..last] + [entries[last]];
    }
  }

  function EvictEach(c: Contents, entries: OrderedMap<int>, maxSize: int): Contents
    decreases |entries|
  {
    if entries == [] || |c.tasks| < maxSize then c
    else EvictEach(Drop(c, entries[0].0), entries[1..], maxSize)
  }

  function Capped(c: Contents, maxSize: Option<int>): Contents {
    if maxSize.None? || |c.tasks| < maxSize.value then c
    else EvictEach(c, ByTime(c.terminalTimestamps), maxSize.value)
  }

  /** `d` is `c` with some terminal tasks removed, oldest first, as few as make room. */
  ghost predicate Makes(c: Contents, d: Contents, maxSize: int) {
    && Inv(d)
    && (|d.tasks| < maxSize || forall k :: Get(d.terminalTimestamps, k).None?)
    && (d == c || |d.tasks| + 1 >= maxSize)
    && (forall k :: Get(d.tasks, k) == Get(c.tasks, k) || (Get(d.tasks, k).None? && HasTerminal(c, k)))
    && (forall k :: Get(d.tasks, k).Some? ==> Get(d.terminalTimestamps, k) == Get(c.terminalTimestamps, k))
    && (forall gone, kept | HasTerminal(c, gone) && Get(d.tasks, gone).None? && HasTerminal(d, kept) ::
          Get(c.terminalTimestamps, gone).Some? && Get(d.terminalTimestamps, kept).Some?
          && Get(c.terminalTimestamps, gone).value <= Get(d.terminalTimestamps, kept).value)
  }

  /** The entries still to visit are the index itself, oldest first. */
  ghost predicate Queue(c: Contents, entries: OrderedMap<int>) {
    Sorted(entries) && Unique(entries) && forall k :: Get(entries, k) == Get(c.terminalTimestamps, k)
  }

  lemma QueueHead(c: Contents, entries: OrderedMap<int>)
    requires Inv(c) && Queue(c, entries) && entries != []
    ensures HasTerminal(c, entries[0].0) && Queue(Drop(c, entries[0].0), entries[1..])
    ensures forall k | HasTerminal(c, k) :: Get(entries, k).Some? && entries[0].1 <= Get(entries, k).value
  {
    DropFacts(c, entries[0].0);
    TailKeys(entries);
    assert Get(entries, entries[0].0).Some?;
    forall k ensures Get(entries[1..], k) == Get(Drop(c, entries[0].0).terminalTimestamps, k) {
      GetKeys(entries[1..], k);
    }
    forall k | HasTerminal(c, k) ensures Get(entries, k).Some? && entries[0].1 <= Get(entries, k).value {
      GetIsEntry(entries, k);
    }
  }

  lemma {:induction false} GetIsEntry(m: OrderedMap<int>, k: string)
    ensures Get(m, k).Some? ==> exists i | 0 <= i < |m| :: m[i] == (k, Get(m, k).value)
  {
    if m != [] {
      GetIsEntry(m[1..], k);
      if m[0].0 == k {
        assert m[0] == (k, Get(m, k).value);
      } else if Get(m, k).Some? {
        var i :| 0 <= i < |m[1..]| && m[1..][i] == (k, Get(m, k).value);
        assert m[i + 1] == (k, Get(m, k).value);
      }
    }
  }

  lemma {:induction false} EvictFacts(c: Contents, entries: OrderedMap<int>, maxSize: int)
    requires Inv(c) && Queue(c, entries)
    ensures Makes(c, EvictEach(c, entries, maxSize), maxSize)
    decreases |entries|
  {
    if entries != [] && |c.tasks| >= maxSize {
      var id := entries[0].0;
      QueueHead(c, entries);
      DropFacts(c, id);
      EvictFacts(Drop(c, id), entries[1..], maxSize);
      MakesMore(c, id, EvictEach(Drop(c, id), entries[1..], maxSize), maxSize);
    }
  }

  /** Removing the oldest terminal task first keeps the order. */
  lemma MakesMore(c: Contents, id: string, d: Contents, maxSize: int)
    requires Inv(c) && HasTerminal(c, id) && |c.tasks| >= maxSize
    requires forall k | HasTerminal(c, k) ::
               Get(c.terminalTimestamps, id).Some? && Get(c.terminalTimestamps, k).Some?
               && Get(c.terminalTimestamps, id).value <= Get(c.terminalTimestamps, k).value
    requires Makes(Drop(c, id), d, maxSize)
    ensures Makes(c, d, maxSize)
  {
    var b := Drop(c, id);
    DropFacts(c, id);
    assert Get(b.tasks, id).None?;
    forall k ensures Get(d.tasks, k) == Get(c.tasks, k) || (Get(d.tasks, k).None? && HasTerminal(c, k)) {
      assert Get(d.tasks, k) == Get(b.tasks, k) || (Get(d.tasks, k).None? && HasTerminal(b, k));
    }
    forall gone, kept | HasTerminal(c, gone) && Get(d.tasks, gone).None? && HasTerminal(d, kept)
      ensures Get(c.terminalTimestamps, gone).Some? && Get(d.terminalTimestamps, kept).Some?
      ensures Get(c.terminalTimestamps, gone).value <= Get(d.terminalTimestamps, kept).value
    {
      assert Get(d.terminalTimestamps, kept) == Get(b.terminalTimestamps, kept);
      assert Get(d.tasks, kept) == Get(b.tasks, kept) || (Get(d.tasks, kept).None? && HasTerminal(b, kept));
      assert HasTerminal(c, kept);
      if gone != id {
        assert HasTerminal(b, gone);
      }
    }
  }

  lemma SortedIsQueue(c: Contents)
    requires Inv(c)
    ensures Queue(c, ByTime(c.terminalTimestamps))
  {
    var a, b := c.terminalTimestamps, ByTime(c.terminalTimestamps);
    ByTimeFacts(a);
    SameEntries(a, b);
  }

  lemma SameEntries(a: OrderedMap<int>, b: OrderedMap<int>)
    requires Unique(a) && multiset(a) == multiset(b)
    ensures Unique(b) && forall k :: Get(b, k) == Get(a, k)
  {
    forall i, j | 0 <= i < j < |b| ensures b[i].0 != b[j].0 {
      if b[i].0 == b[j].0 {
        assert b[i] in multiset(a) && b[j] in multiset(a);
        var p :| 0 <= p < |a| && a[p] == b[i];
        var q :| 0 <= q < |a| && a[q] == b[j];
        assert p == q;
        Twice(b, i, j);
        Once(a, p);
      }
    }
    forall k ensures Get(b, k) == Get(a, k) {
      GetIsEntry(a, k);
      GetIsEntry(b, k);
      if Get(a, k).Some? {
        assert (k, Get(a, k).value) in multiset(b);
        var i :| 0 <= i < |b| && b[i] == (k, Get(a, k).value);
        GetUnique(b, i);
      } else if Get(b, k).Some? {
        assert (k, Get(b, k).value) in multiset(a);
        var i :| 0 <= i < |a| && a[i] == (k, Get(b, k).value);
        GetUnique(a, i);
      }
    }
  }

  lemma Twice(m: OrderedMap<int>, i: nat, j: nat)
    requires i < j < |m| && m[i] == m[j]
    ensures multiset(m)[m[i]] >= 2
  {
    assert m == m[..i] + [m[i]] + m[i + 1..j] + [m[j]] + m[j + 1..];
  }

  lemma Once(m: OrderedMap<int>, p: nat)
    requires Unique(m) && p < |m|
    ensures multiset(m)[m[p]] == 1
  {
    assert m == m[..p] + [m[p]] + m[p + 1..];
    assert m[p] !in m[..p] && m[p] !in m[p + 1..];
  }

  lemma {:induction false} GetUnique(m: OrderedMap<int>, i: nat)
    requires Unique(m) && i < |m|
    ensures Get(m, m[i].0) == Some(m[i].1)
  {
    if i > 0 {
      assert m[0].0 != m[i].0;
      GetUnique(m[1..], i - 1);
    }
  }

  lemma CappedFacts(c: Contents, maxSize: Option<int>)
    requires Inv(c)
    ensures maxSize.None? ==> Capped(c, maxSize) == c
    ensures maxSize.Some? ==> Makes(c, Capped(c, maxSize), maxSize.value)
  {
    if maxSize.Some? && |c.tasks| >= maxSize.value {
      SortedIsQueue(c);
      EvictFacts(c, ByTime(c.terminalTimestamps), maxSize.value);
    }
  }

  // ---- The operations ---------------------------------------------------------------------

  function NewTask(id: string, contextId: string, metadata: Option<map<string, Value>>): Task {
    Task(id, contextId, Status(Submitted, None), None, None, metadata)
  }

  function Created(c: Contents, task: Task, maxSize: Option<int>, ttl: Option<int>, now: int): Contents {
    var d := Capped(ExpireEach(c, c.terminalTimestamps, ttl, now), maxSize);
    d.(tasks := Set(d.tasks, task.id, task))
  }

  datatype UpdateResult = Stored(task: Task) | NotFound | Terminal

  function UpdateAnswer(c: Contents, id: string, update: TaskUpdate): UpdateResult {
    if Get(c.tasks, id).None? then NotFound
    else if Refuses(Get(c.tasks, id).value, update) then Terminal
    else Stored(Updated(Get(c.tasks, id).value, update))
  }

  function Wrote(c: Contents, id: string, update: TaskUpdate, now: int): Contents {
    var answer := UpdateAnswer(c, id, update);
    if !answer.Stored? then c
    else Contents(Set(c.tasks, id, answer.task),
                  if update.status.Some? && IsTerminal(update.status.value.state)
                  then Set(c.terminalTimestamps, id, now) else c.terminalTimestamps)
  }

  class InMemoryTaskStore {
    const maxSize: Option<int>
    const ttlMs: Option<int>
    var tasks: OrderedMap<Task>
    var terminalTimestamps: OrderedMap<int>

    function View(): Contents
      reads this
    {
      Contents(tasks, terminalTimestamps)
    }

    ghost predicate Valid()
      reads this
    {
      Inv(View())
    }

    constructor (maxSize: Option<int>, ttlMs: Option<int>)
      ensures Valid() && View() == Contents([], [])
      ensures this.maxSize == maxSize && this.ttlMs == ttlMs
    {
      this.maxSize, this.ttlMs, tasks, terminalTimestamps := maxSize, ttlMs, [], [];
    }

    method EvictIfExpired(id: string, now: int)
      requires Valid()
      modifies this
      ensures Valid() && View() == ExpireOne(old(View()), id, ttlMs, now)
    {
      if ttlMs.None? {
        return;
      }
      var enteredAt := Get(terminalTimestamps, id);
      if enteredAt.Some? && now - enteredAt.value >= ttlMs.value {
        DropFacts(View(), id);
        tasks, terminalTimestamps := Remove(tasks, id), Remove(terminalTimestamps, id);
      }
    }

    method EvictExpired(now: int)
      requires Valid()
      modifies this
      ensures Valid() && View() == ExpireEach(old(View()), old(terminalTimestamps), ttlMs, now)
    {
      if ttlMs.None? {
        NoExpiry(View(), terminalTimestamps, now);
        return;
      }
      var entries := terminalTimestamps;
      var i := 0;
      while i < |entries|
        invariant 0 <= i <= |entries| && Valid()
        invariant ExpireEach(View(), entries[i..], ttlMs, now) == ExpireEach(old(View()), entries, ttlMs, now)
      {
        EvictIfExpired(entries[i].0, now);
        i := i + 1;
      }
    }

    method EvictIfOverCapacity()
      requires Valid()
      modifies this
      ensures Valid() && View() == Capped(old(View()), maxSize)
    {
      CappedFacts(View(), maxSize);
      if maxSize.None? || |tasks| < maxSize.value {
        return;
      }
      var entries := ByTime(terminalTimestamps);
      var i := 0;
      while i < |entries| && |tasks| >= maxSize.value
        invariant 0 <= i <= |entries|
        invariant EvictEach(View(), entries[i..], maxSize.value) == EvictEach(old(View()), entries, maxSize.value)
      {
        tasks, terminalTimestamps := Remove(tasks, entries[i].0), Remove(terminalTimestamps, entries[i].0);
        i := i + 1;
      }
    }

    /** `id` is a fresh random id. */
    method CreateTask(id: string, contextId: string, metadata: Option<map<string, Value>>, now: int)
        returns (task: Task)
      requires Valid() && Get(tasks, id).None?
      modifies this
      ensures Valid() && task == NewTask(id, contextId, metadata)
      ensures View() == Created(old(View()), task, maxSize, ttlMs, now)
    {
      CreateFacts(View(), NewTask(id, contextId, metadata), maxSize, ttlMs, now);
      EvictExpired(now);
      EvictIfOverCapacity();
      task := NewTask(id, contextId, metadata);
      tasks := Set(tasks, id, task);
    }

    method GetTask(id: string, now: int) returns (task: Option<Task>)
      requires Valid()
      modifies this
      ensures Valid() && View() == ExpireOne(old(View()), id, ttlMs, now)
      ensures task == Get(tasks, id)
    {
      EvictIfExpired(id, now);
      task := Get(tasks, id);
    }

    method UpdateTask(id: string, update: TaskUpdate, now: int) returns (answer: UpdateResult)
      requires Valid()
      modifies this
      ensures Valid()
      ensures var c := ExpireOne(old(View()), id, ttlMs, now);
              answer == UpdateAnswer(c, id, update) && View() == Wrote(c, id, update, now)
    {
      EvictIfExpired(id, now);
      WroteFacts(View(), id, update, now);
      var task := Get(tasks, id);
      if task.None? {
        return NotFound;
      }
      if update.status.Some? && IsTerminal(task.value.status.state) {
        return Terminal;
      }
      var next := Updated(task.value, update);
      if update.status.Some? && IsTerminal(update.status.value.state) {
        terminalTimestamps := Set(terminalTimestamps, id, now);
      }
      tasks := Set(tasks, id, next);
      answer := Stored(next);
    }

    method DeleteTask(id: string)
      requires Valid()
      modifies this
      ensures Valid() && View() == Drop(old(View()), id)
    {
      DropFacts(View(), id);
      tasks, terminalTimestamps := Remove(tasks, id), Remove(terminalTimestamps, id);
    }

    method ListTasks(matches: Task -> bool, query: Paging.Query, now: int) returns (result: Paging.Page<Task>)
      requires Valid()
      modifies this
      ensures Valid() && View() == ExpireEach(old(View()), old(terminalTimestamps), ttlMs, now)
      ensures result == Paging.PageOf(Paging.Matching(Paging.Values(tasks), matches), query)
    {
      EvictExpired(now);
      var found := Paging.Filter(Paging.Values(tasks), matches);
      result := Paging.PageOf(found, query);
    }
  }

  lemma {:induction false} NoExpiry(c: Contents, ids: OrderedMap<int>, now: int)
    ensures ExpireEach(c, ids, None, now) == c
    decreases |ids|
  {
    if ids != [] {
      NoExpiry(c, ids[1..], now);
    }
  }

  /** After a create either the store is within its cap or no terminal task is left; tasks
      still running are never evicted. */
  lemma CreateFacts(c: Contents, task: Task, maxSize: Option<int>, ttl: Option<int>, now: int)
    requires Inv(c) && Get(c.tasks, task.id).None? && !IsTerminal(task.status.state)
    ensures var d := Created(c, task, maxSize, ttl, now);
            && Inv(d) && Get(d.tasks, task.id) == Some(task)
            && (maxSize.Some? ==> |d.tasks| <= maxSize.value || forall k :: !HasTerminal(d, k))
            && (forall k | k != task.id ::
                  Get(d.tasks, k) == Get(c.tasks, k) || (Get(d.tasks, k).None? && HasTerminal(c, k)))
  {
    var swept := ExpireEach(c, c.terminalTimestamps, ttl, now);
    SweepFacts(c, ttl, now);
    CappedFacts(swept, maxSize);
    var capped := Capped(swept, maxSize);
    assert Get(capped.tasks, task.id).None?;
    SetFacts(capped.tasks, task.id, task);
    GetKeys(capped.tasks, task.id);
  }

  /** A write keeps the index exact, and a refused one changes nothing. */
  lemma WroteFacts(c: Contents, id: string, update: TaskUpdate, now: int)
    requires Inv(c)
    ensures var d := Wrote(c, id, update, now);
            && Inv(d)
            && (HasTerminal(c, id) ==>
                  Get(d.tasks, id).Some? && Get(d.tasks, id).value.status == Get(c.tasks, id).value.status)
            && (forall k | k != id :: Get(d.tasks, k) == Get(c.tasks, k))
  {
    var answer := UpdateAnswer(c, id, update);
    if answer.Stored? {
      SetFacts(c.tasks, id, answer.task);
      SetFacts(c.terminalTimestamps, id, now);
    }
  }

  /** What a write that is not refused leaves: given fields replace, others stay, metadata
      merges by key, and the time a task becomes terminal is recorded. A write to a missing
      task, or of a status on a terminal one, changes nothing. */
  lemma WriteLeaves(c: Contents, id: string, update: TaskUpdate, now: int)
    requires Inv(c)
    ensures var d := Wrote(c, id, update, now);
            if Get(c.tasks, id).None? || (HasTerminal(c, id) && update.status.Some?) then d == c
            else
              && Get(d.tasks, id).Some?
              && var before, after := Get(c.tasks, id).value, Get(d.tasks, id).value;
                 && after.id == before.id && after.contextId == before.contextId
                 && after.status == (if update.status.Some? then update.status.value else before.status)
                 && after.artifacts == (if update.artifacts.Some? then update.artifacts else before.artifacts)
                 && after.history == (if update.history.Some? then update.history else before.history)
                 && (update.metadata.None? ==> after.metadata == before.metadata)
                 && (update.metadata.Some? ==>
                       && after.metadata.Some?
                       && forall key :: key in after.metadata.value <==>
                            key in update.metadata.value
                            || (before.metadata.Some? && key in before.metadata.value))
                 && (update.metadata.Some? ==> forall key | key in after.metadata.value ::
                       after.metadata.value[key] ==
                         if key in update.metadata.value then update.metadata.value[key]
                         else before.metadata.value[key])
                 && Get(d.terminalTimestamps, id) ==
                      if update.status.Some? && IsTerminal(update.status.value.state) then Some(now)
                      else Get(c.terminalTimestamps, id)
  {
    var answer := UpdateAnswer(c, id, update);
    if answer.Stored? {
      SetFacts(c.tasks, id, answer.task);
      SetFacts(c.terminalTimestamps, id, now);
    }
  }

  // ---- Runs ------------------------------------------------------------------------------

  datatype Op =
    | Create(task: Task, at: int)
    | Read(id: string, at: int)
    | Write(id: string, update: TaskUpdate, at: int)
    | Delete(id: string)
    | Sweep(at: int)

  predicate Allowed(c: Contents, op: Op) {
    op.Create? ==> Get(c.tasks, op.task.id).None? && op.task.status == Status(Submitted, None)
  }

  function Apply(c: Contents, op: Op, maxSize: Option<int>, ttl: Option<int>): Contents {
    match op
    case Create(task, at) => Created(c, task, maxSize, ttl, at)
    case Read(id, at) => ExpireOne(c, id, ttl, at)
    case Write(id, update, at) => Wrote(ExpireOne(c, id, ttl, at), id, update, at)
    case Delete(id) => Drop(c, id)
    case Sweep(at) => ExpireEach(c, c.terminalTimestamps, ttl, at)
  }

  ghost predicate Runs(c: Contents, ops: seq<Op>, maxSize: Option<int>, ttl: Option<int>)
    decreases |ops|
  {
    ops != [] ==> Allowed(c, ops[0]) && Runs(Apply(c, ops[0], maxSize, ttl), ops[1..], maxSize, ttl)
  }

  ghost function After(c: Contents, ops: seq<Op>, maxSize: Option<int>, ttl: Option<int>): Contents
    requires Runs(c, ops, maxSize, ttl)
    decreases |ops|
  {
    if ops == [] then c else After(Apply(c, ops[0], maxSize, ttl), ops[1..], maxSize, ttl)
  }

  lemma OpFacts(c: Contents, op: Op, maxSize: Option<int>, ttl: Option<int>, id: string)
    requires Inv(c) && Allowed(c, op)
    ensures Inv(Apply(c, op, maxSize, ttl))
    ensures var d := Apply(c, op, maxSize, ttl);
            HasTerminal(c, id) && Get(d.tasks, id).Some? ==>
                Get(d.tasks, id).value.status == Get(c.tasks, id).value.status
    ensures !(op.Create? && op.task.id == id) && Get(c.tasks, id).None? ==>
        Get(Apply(c, op, maxSize, ttl).tasks, id).None?
  {
    match op
    case Create(task, at) => CreateFacts(c, task, maxSize, ttl, at);
    case Read(k, at) => DropFacts(c, k);
    case Write(k, update, at) =>
      DropFacts(c, k);
      WroteFacts(ExpireOne(c, k, ttl, at), k, update, at);
    case Delete(k) => DropFacts(c, k);
    case Sweep(at) => SweepFacts(c, ttl, at);
  }

  /** Over any run that does not reuse its id, a task's terminal status never changes while
      it is stored. */
  lemma {:induction false} TerminalIsFinal(c: Contents, ops: seq<Op>, maxSize: Option<int>, ttl: Option<int>,
      id: string)
    requires Inv(c) && Runs(c, ops, maxSize, ttl)
    requires forall op | op in ops :: !(op.Create? && op.task.id == id)
    ensures Inv(After(c, ops, maxSize, ttl))
    ensures var d := After(c, ops, maxSize, ttl);
            HasTerminal(c, id) && Get(d.tasks, id).Some? ==>
                Get(d.tasks, id).value.status == Get(c.tasks, id).value.status
    ensures Get(c.tasks, id).None? ==> Get(After(c, ops, maxSize, ttl).tasks, id).None?
    decreases |ops|
  {
    if ops != [] {
      OpFacts(c, ops[0], maxSize, ttl, id);
      TerminalIsFinal(Apply(c, ops[0], maxSize, ttl), ops[1..], maxSize, ttl, id);
    }
  }
}
