// The Amplifier API as the subscribers see it: an append-only log of tasks with
// unique ids, read in pages that follow a cursor.
module TaskLog {
  import opened Options

  datatype TaskId = TaskId(uuid: nat)

  datatype Task = Task(id: TaskId, timestamp: int)

  ghost predicate UniqueIds(s: seq<Task>) {
    forall i, j :: 0 <= i < j < |s| ==> s[i].id != s[j].id
  }

  ghost predicate StrictlyTimed(s: seq<Task>) {
    forall i, j :: 0 <= i < j < |s| ==> s[i].timestamp < s[j].timestamp
  }

  ghost predicate Sorted(s: seq<Task>) {
    forall i, j :: 0 <= i < j < |s| ==> s[i].timestamp <= s[j].timestamp
  }

  // What an unstable sort by timestamp may return: any ordered permutation.
  ghost predicate IsSortOf(r: seq<Task>, s: seq<Task>) {
    Sorted(r) && multiset(r) == multiset(s)
  }

  // The cursor names the last of the first n tasks; no cursor names none of them.
  ghost predicate At(log: seq<Task>, cursor: Option<TaskId>, n: nat) {
    match cursor
    case None => n == 0
    case Some(id) => 0 < n <= |log| && log[n - 1].id == id
  }

  // A page is the tasks from position start up to position end, in any order.
  ghost predicate IsPage(log: seq<Task>, start: nat, end: nat, tasks: seq<Task>) {
    start <= end <= |log| && multiset(tasks) == multiset(log[start..end])
  }

  // The first n tasks of the log are among the given ids.
  ghost predicate PrefixIn(log: seq<Task>, ids: seq<TaskId>, n: nat) {
    n <= |log| && forall j :: 0 <= j < n ==> log[j].id in ids
  }

  // These tasks are the log's from position start on.
  ghost predicate Slice(log: seq<Task>, start: nat, tasks: seq<Task>) {
    start + |tasks| <= |log| && tasks == log[start..start + |tasks|]
  }

  function Min(a: int, b: int): (r: int)
    ensures r <= a && r <= b && (r == a || r == b)
  {
    if a <= b then a else b
  }

  function Ids(s: seq<Task>): (ids: seq<TaskId>)
    ensures |ids| == |s|
    ensures forall i :: 0 <= i < |s| ==> ids[i] == s[i].id
  {
    seq(|s|, i requires 0 <= i < |s| => s[i].id)
  }

  lemma AtIsFunctional(log: seq<Task>, cursor: Option<TaskId>, m: nat, n: nat)
    requires UniqueIds(log) && At(log, cursor, m) && At(log, cursor, n)
    ensures m == n
  {
  }

  lemma SamePages(r: seq<Task>, s: seq<Task>)
    requires multiset(r) == multiset(s)
    ensures |r| == |s|
    ensures forall i :: 0 <= i < |r| ==> r[i] in s
    ensures forall i :: 0 <= i < |s| ==> s[i] in r
  {
    assert |multiset(r)| == |multiset(s)|;
    forall i | 0 <= i < |r| ensures r[i] in s { assert r[i] in multiset(s); }
    forall i | 0 <= i < |s| ensures s[i] in r { assert s[i] in multiset(r); }
  }

  // The task that a sort leaves last is the page's own last task exactly when no
  // other task of the page reaches its timestamp.
  lemma LastOfSort(r: seq<Task>, s: seq<Task>)
    requires IsSortOf(r, s) && s != []
    requires forall i :: 0 <= i < |s| - 1 ==> s[i].timestamp < s[|s| - 1].timestamp
    ensures |r| == |s| && r[|r| - 1] == s[|s| - 1]
  {
    SamePages(r, s);
    var i :| 0 <= i < |s| && s[i] == r[|r| - 1];
    var j :| 0 <= j < |r| && r[j] == s[|s| - 1];
    assert r[j].timestamp <= r[|r| - 1].timestamp;
  }

  lemma WithoutLast(s: seq<Task>)
    requires s != []
    ensures multiset(s[..|s| - 1]) == multiset(s) - multiset{s[|s| - 1]}
    ensures s == s[..|s| - 1] + [s[|s| - 1]]
  {
    assert s == s[..|s| - 1] + [s[|s| - 1]];
  }

  lemma InitOfSort(r: seq<Task>, s: seq<Task>, n: nat)
    requires IsSortOf(r, s) && StrictlyTimed(s) && |r| == |s| == n + 1 && r[n] == s[n]
    ensures IsSortOf(r[..n], s[..n]) && StrictlyTimed(s[..n])
  {
    SortedInit(r, n);
    WithoutLast(r);
    WithoutLast(s);
  }

  lemma SortedInit(r: seq<Task>, n: nat)
    requires Sorted(r) && n <= |r|
    ensures Sorted(r[..n])
  {
  }

  lemma {:induction false} SortRestores(r: seq<Task>, s: seq<Task>)
    requires IsSortOf(r, s) && StrictlyTimed(s)
    ensures r == s
    decreases |s|
  {
    if s == [] {
      SamePages(r, s);
    } else {
      ghost var n := |s| - 1;
      LatestIsLast(s);
      LastOfSort(r, s);
      InitOfSort(r, s, n);
      SortRestores(r[..n], s[..n]);
      assert r == r[..n] + [r[n]] && s == s[..n] + [s[n]];
    }
  }

  lemma LatestIsLast(s: seq<Task>)
    requires StrictlyTimed(s) && s != []
    ensures forall i :: 0 <= i < |s| - 1 ==> s[i].timestamp < s[|s| - 1].timestamp
  {
  }

  // A sort, to show that the unstable one has something to return.
  function Insert(t: Task, s: seq<Task>): (r: seq<Task>)
    requires Sorted(s)
    ensures Sorted(r) && multiset(r) == multiset(s) + multiset{t}
  {
    if s == [] || t.timestamp <= s[0].timestamp then [t] + s
    else
      var rest := Insert(t, s[1..]);
      InsertBehind(t, s, rest);
      [s[0]] + rest
  }

  lemma InsertBehind(t: Task, s: seq<Task>, rest: seq<Task>)
    requires s != [] && Sorted(s) && s[0].timestamp < t.timestamp
    requires Sorted(rest) && multiset(rest) == multiset(s[1..]) + multiset{t}
    ensures Sorted([s[0]] + rest) && multiset([s[0]] + rest) == multiset(s) + multiset{t}
  {
    assert s == [s[0]] + s[1..];
    forall i | 0 <= i < |rest| ensures s[0].timestamp <= rest[i].timestamp {
      assert rest[i] in multiset(rest);
      assert rest[i] == t || rest[i] in s[1..];
    }
  }

  function Sort(s: seq<Task>): (r: seq<Task>)
    ensures IsSortOf(r, s)
  {
    if s == [] then []
    else
      assert s == [s[0]] + s[1..];
      Insert(s[0], Sort(s[1..]))
  }

  lemma Without(s: seq<Task>, k: nat)
    requires k < |s|
    ensures multiset(s[..k] + s[k + 1..]) + multiset{s[k]} == multiset(s)
  {
    assert s == s[..k] + [s[k]] + s[k + 1..];
  }

  lemma SortedSnoc(r: seq<Task>, t: Task)
    requires Sorted(r) && forall i :: 0 <= i < |r| ==> r[i].timestamp <= t.timestamp
    ensures Sorted(r + [t])
  {
  }

  // Some sort of the page ends with any chosen task that no other task outdates.
  lemma SortEndingWith(s: seq<Task>, k: nat) returns (r: seq<Task>)
    requires k < |s|
    requires forall i :: 0 <= i < |s| ==> s[i].timestamp <= s[k].timestamp
    ensures IsSortOf(r, s) && r != [] && r[|r| - 1] == s[k]
  {
    var rest := s[..k] + s[k + 1..];
    var front := Sort(rest);
    Without(s, k);
    forall i | 0 <= i < |front| ensures front[i].timestamp <= s[k].timestamp {
      assert front[i] in multiset(front);
      assert front[i] in s;
    }
    SortedSnoc(front, s[k]);
    r := front + [s[k]];
  }

  lemma LatestTask(s: seq<Task>) returns (k: nat)
    requires s != []
    ensures k < |s| && forall i :: 0 <= i < |s| ==> s[i].timestamp <= s[k].timestamp
  {
    k := 0;
    for n := 1 to |s|
      invariant k < n && forall i :: 0 <= i < n ==> s[i].timestamp <= s[k].timestamp
    {
      if s[n].timestamp > s[k].timestamp { k := n; }
    }
  }

  // Every unstable sort of a page leaves the page's last task last, so that the
  // cursor reaches the end of the page, if and only if no other task of the page
  // has reached that task's timestamp.
  lemma SortKeepsLastIff(s: seq<Task>)
    requires UniqueIds(s) && s != []
    ensures (forall r :: IsSortOf(r, s) ==> r != [] && r[|r| - 1] == s[|s| - 1])
       <==> (forall i :: 0 <= i < |s| - 1 ==> s[i].timestamp < s[|s| - 1].timestamp)
  {
    var n := |s| - 1;
    if forall i :: 0 <= i < n ==> s[i].timestamp < s[n].timestamp {
      forall r | IsSortOf(r, s) ensures r != [] && r[|r| - 1] == s[n] {
        LastOfSort(r, s);
      }
    } else {
      var k := LatestTask(s[..n]);
      var r := SortEndingWith(s, k);
      assert s[k].id != s[n].id;
    }
  }

  lemma SwapTied(s: seq<Task>, i: nat, j: nat) returns (r: seq<Task>)
    requires UniqueIds(s) && Sorted(s) && i < j < |s| && s[i].timestamp == s[j].timestamp
    ensures IsSortOf(r, s) && r != s
  {
    r := s[i := s[j]][j := s[i]];
    assert r[i].id != s[i].id;
    forall a, b | 0 <= a < b < |r| ensures r[a].timestamp <= r[b].timestamp {
      assert r[a].timestamp == s[a].timestamp && r[b].timestamp == s[b].timestamp;
    }
  }

  // Every unstable sort of a page returns it in log order if and only if its
  // timestamps strictly increase.
  lemma SortRestoresIff(s: seq<Task>)
    requires UniqueIds(s)
    ensures (forall r :: IsSortOf(r, s) ==> r == s) <==> StrictlyTimed(s)
  {
    if StrictlyTimed(s) {
      forall r | IsSortOf(r, s) ensures r == s { SortRestores(r, s); }
    } else if Sorted(s) {
      var i, j :| 0 <= i < j < |s| && s[i].timestamp >= s[j].timestamp;
      var r := SwapTied(s, i, j);
    } else {
      assert IsSortOf(Sort(s), s);
    }
  }
}
