/** The reactor: who is registered, who is destroyed when, and in which order posted tasks run.

    What callbacks and tasks do to the loop is data here: each comes with the list of calls that
    it makes. Objects are numbered in the order in which they are handed over.
 */
module EventLoop {
  datatype Fd = Fd(number: nat)
  datatype Handler = Handler(id: nat)
  datatype Registration = Registration(events: nat, target: Handler)

  datatype Action =
    | Add(fd: Fd, events: nat, accepted: bool)
    | Update(fd: Fd, events: nat, accepted: bool)
    | RequestClose(fd: Fd)
    | Post(task: Task)
    | Halt

  datatype Task = Task(actions: seq<Action>)

  /** One entry of the array that epoll_wait fills. */
  datatype Ready =
    | Doorbell(between: seq<Task>)  // what other threads post after the bell is drained
    | Of(target: Handler, broken: bool, readable: bool, writable: bool,
         onError: seq<Action>, onReadable: seq<Action>, onWritable: seq<Action>)

  datatype Call = OnError(target: Handler) | OnReadable(target: Handler) | OnWritable(target: Handler)

  /** The descriptors that a list of actions asks to close. */
  function Closing(actions: seq<Action>): set<Fd> {
    set k | 0 <= k < |actions| && actions[k].RequestClose? :: actions[k].fd
  }

  function Posted(actions: seq<Action>): seq<Task> {
    if actions == [] then []
    else
      var last := actions[|actions| - 1];
      Posted(actions[..|actions| - 1]) + if last.Post? then [last.task] else []
  }

  function PostedByAll(tasks: seq<Task>): seq<Task> {
    if tasks == [] then [] else PostedByAll(tasks[..|tasks| - 1]) + Posted(tasks[|tasks| - 1].actions)
  }

  /** The callbacks that one entry leads to, when `pending` are to be closed already. */
  function Calls(r: Ready, fd: Fd, pending: set<Fd>): seq<Call>
    requires r.Of?
  {
    if r.broken then [OnError(r.target)]
    else
      (if r.readable then [OnReadable(r.target)] else [])
      + if r.writable && fd !in pending + (if r.readable then Closing(r.onReadable) else {}) then [OnWritable(r.target)] else []
  }

  /** What the callbacks of one entry ask of the loop, one after the other. */
  function Asked(r: Ready, fd: Fd, pending: set<Fd>): seq<Action>
    requires r.Of?
  {
    if r.broken then r.onError
    else
      (if r.readable then r.onReadable else [])
      + if r.writable && fd !in pending + (if r.readable then Closing(r.onReadable) else {}) then r.onWritable else []
  }

  function ClosingByAll(tasks: seq<Task>): set<Fd> {
    if tasks == [] then {} else ClosingByAll(tasks[..|tasks| - 1]) + Closing(tasks[|tasks| - 1].actions)
  }

  /** What a batch works on: the closes noted, the queue, the tasks that ran and the callbacks made. */
  datatype Work = Work(pending: set<Fd>, tasks: seq<Task>, ran: seq<Task>, calls: seq<Call>)

  /** What one entry makes of it; the doorbell takes the queue over as a whole. */
  function AfterEntry(r: Ready, fds: map<Handler, Fd>, w: Work): Work
    requires r.Of? ==> r.target in fds
  {
    match r
    case Doorbell(between) =>
      var local := w.tasks + between;
      Work(w.pending + ClosingByAll(local), PostedByAll(local), w.ran + local, w.calls)
    case Of(target, _, _, _, _, _, _) =>
      var asked := Asked(r, fds[target], w.pending);
      Work(w.pending + Closing(asked), w.tasks + Posted(asked), w.ran, w.calls + Calls(r, fds[target], w.pending))
  }

  predicate AllIn(ready: seq<Ready>, fds: map<Handler, Fd>) {
    forall k :: 0 <= k < |ready| && ready[k].Of? ==> ready[k].target in fds
  }

  /** What a batch makes of it, entry by entry. */
  function AfterBatch(ready: seq<Ready>, fds: map<Handler, Fd>, w: Work): Work
    requires AllIn(ready, fds)
  {
    if ready == [] then w
    else AfterEntry(ready[|ready| - 1], fds, AfterBatch(ready[..|ready| - 1], fds, w))
  }

  // ---- what a batch has to do, said without how ----

  /** These callbacks are what one entry deserves: its error alone; or its read, and then its write unless its own close has
      been asked for by the end of the batch. What a callback that is made asks to close is among what is closed. */
  predicate Deserves(r: Ready, fds: map<Handler, Fd>, made: seq<Call>, closing: set<Fd>)
    requires r.Of? ==> r.target in fds
  {
    match r
    case Doorbell(_) => made == []
    case Of(target, broken, readable, writable, onError, onReadable, onWritable) =>
      var first := if readable then [OnReadable(target)] else [];
      if broken then made == [OnError(target)] && Closing(onError) <= closing
      else
        && (made == first || (writable && made == first + [OnWritable(target)]))
        && (writable && fds[target] !in closing ==> made == first + [OnWritable(target)])
        && (readable ==> Closing(onReadable) <= closing)
        && (made != first ==> Closing(onWritable) <= closing)
  }

  /** The callbacks from `from` on are those that the entries deserve, entry by entry: entry `k` has led to those between
      `marks[k]` and `marks[k + 1]`. */
  predicate Played(ready: seq<Ready>, fds: map<Handler, Fd>, calls: seq<Call>, from: nat, closing: set<Fd>, marks: seq<nat>)
    requires AllIn(ready, fds)
  {
    && |marks| == |ready| + 1 && marks[0] == from && marks[|ready|] == |calls|
    && forall k: nat :: k < |ready| ==> PlayedAt(ready, fds, calls, closing, marks, k)
  }

  predicate PlayedAt(ready: seq<Ready>, fds: map<Handler, Fd>, calls: seq<Call>, closing: set<Fd>, marks: seq<nat>, k: nat)
    requires AllIn(ready, fds) && k < |ready| < |marks|
  {
    marks[k] <= marks[k + 1] <= |calls| && Deserves(ready[k], fds, calls[marks[k]..marks[k + 1]], closing)
  }

  lemma StillPlayedAt(ready: seq<Ready>, fds: map<Handler, Fd>, early: seq<Call>, late: seq<Call>, closing: set<Fd>, more: set<Fd>,
                      marks: seq<nat>, mark: nat, k: nat)
    requires AllIn(ready, fds) && k < |ready| - 1 && |marks| == |ready| && early <= late && closing <= more
    requires PlayedAt(ready[..|ready| - 1], fds, early, closing, marks, k)
    ensures PlayedAt(ready, fds, late, more, marks + [mark], k)
  {
    hide Deserves;
    assert late[marks[k]..marks[k + 1]] == early[marks[k]..marks[k + 1]];
    DeservesStill(ready[k], fds, early[marks[k]..marks[k + 1]], closing, more);
  }

  lemma EntryDeserves(r: Ready, fds: map<Handler, Fd>, w: Work)
    requires r.Of? ==> r.target in fds
    ensures var v := AfterEntry(r, fds, w);
            && w.calls <= v.calls && w.pending <= v.pending
            && Deserves(r, fds, v.calls[|w.calls|..], v.pending)
  {
    hide Closing, Posted, ClosingByAll, PostedByAll;
    if r.Of? && !r.broken {
      var first := if r.readable then r.onReadable else [];
      ClosingOfNone();
      ClosingOfBoth(first, r.onWritable);
      assert first + [] == first;
    }
  }

  lemma ClosingOfNone()
    ensures Closing([]) == {}
  {
  }

  lemma DeservesStill(r: Ready, fds: map<Handler, Fd>, made: seq<Call>, early: set<Fd>, late: set<Fd>)
    requires (r.Of? ==> r.target in fds) && Deserves(r, fds, made, early) && early <= late
    requires r.Of? && r.writable && fds[r.target] !in late ==> fds[r.target] !in early
    ensures Deserves(r, fds, made, late)
  {
  }

  lemma LastPlayedAt(ready: seq<Ready>, fds: map<Handler, Fd>, early: seq<Call>, late: seq<Call>, closing: set<Fd>, marks: seq<nat>)
    requires AllIn(ready, fds) && ready != [] && |marks| == |ready| + 1
    requires marks[|ready| - 1] == |early| && marks[|ready|] == |late| && early <= late
    requires Deserves(ready[|ready| - 1], fds, late[|early|..], closing)
    ensures PlayedAt(ready, fds, late, closing, marks, |ready| - 1)
  {
    assert late[|early|..|late|] == late[|early|..];
  }

  /** A batch makes the callbacks that its entries deserve, in their order, and no others. */
  lemma {:induction false} BatchPlays(ready: seq<Ready>, fds: map<Handler, Fd>, w: Work) returns (marks: seq<nat>)
    requires AllIn(ready, fds)
    ensures var v := AfterBatch(ready, fds, w);
            w.calls <= v.calls && Played(ready, fds, v.calls, |w.calls|, v.pending, marks)
  {
    if ready == [] {
      marks := [|w.calls|];
    } else {
      hide AfterEntry, Deserves, PlayedAt;
      var rest, last := ready[..|ready| - 1], ready[|ready| - 1];
      var m, v := AfterBatch(rest, fds, w), AfterBatch(ready, fds, w);
      var older := BatchPlays(rest, fds, w);
      EntryDeserves(last, fds, m);
      marks := older + [|v.calls|];
      forall k: nat | k < |ready| ensures PlayedAt(ready, fds, v.calls, v.pending, marks, k) {
        if k < |rest| {
          StillPlayedAt(ready, fds, m.calls, v.calls, m.pending, v.pending, older, |v.calls|, k);
        } else {
          LastPlayedAt(ready, fds, m.calls, v.calls, v.pending, marks);
        }
      }
    }
  }

  lemma {:induction false} ClosingByAllIs(tasks: seq<Task>, fd: Fd)
    ensures fd in ClosingByAll(tasks) <==> exists k :: 0 <= k < |tasks| && fd in Closing(tasks[k].actions)
  {
    hide Closing;
    if tasks != [] {
      var rest := tasks[..|tasks| - 1];
      ClosingByAllIs(rest, fd);
      assert forall k :: 0 <= k < |rest| ==> rest[k] == tasks[k];
    }
  }

  /** A callback of one of these entries may ask to close the descriptor. */
  predicate Wanted(ready: seq<Ready>, fd: Fd) {
    exists k :: 0 <= k < |ready| && ready[k].Of?
                && (fd in Closing(ready[k].onError) || fd in Closing(ready[k].onReadable) || fd in Closing(ready[k].onWritable))
  }

  predicate WantedByTask(tasks: seq<Task>, from: nat, fd: Fd) {
    exists k :: from <= k < |tasks| && fd in Closing(tasks[k].actions)
  }

  lemma OneEntryCloses(r: Ready, fds: map<Handler, Fd>, w: Work, fd: Fd)
    requires r.Of? ==> r.target in fds
    ensures var v := AfterEntry(r, fds, w);
            w.ran <= v.ran && (r.Of? ==> v.ran == w.ran)
            && (fd in v.pending ==> fd in w.pending || Wanted([r], fd) || WantedByTask(v.ran, |w.ran|, fd))
            && (fd in w.pending || WantedByTask(v.ran, |w.ran|, fd) ==> fd in v.pending)
  {
    hide Closing, Posted, PostedByAll, ClosingByAll;
    var v := AfterEntry(r, fds, w);
    match r
    case Doorbell(between) =>
      var local := w.tasks + between;
      ClosingByAllIs(local, fd);
      assert forall k :: 0 <= k < |local| ==> v.ran[|w.ran| + k] == local[k];
    case Of(_, _, _, _, _, _, _) =>
      var first := if r.readable then r.onReadable else [];
      ClosingOfNone();
      ClosingOfBoth(first, r.onWritable);
      assert first + [] == first;
      assert [r][0] == r;
  }

  /** What is to be closed at the end of a batch was so before, or a callback or a task of the batch has asked for it. */
  lemma {:induction false} OnlyTheWanted(ready: seq<Ready>, fds: map<Handler, Fd>, w: Work, fd: Fd)
    requires AllIn(ready, fds)
    ensures var v := AfterBatch(ready, fds, w);
            w.ran <= v.ran
            && (fd in v.pending ==> fd in w.pending || Wanted(ready, fd) || WantedByTask(v.ran, |w.ran|, fd))
            && (fd in w.pending || WantedByTask(v.ran, |w.ran|, fd) ==> fd in v.pending)
  {
    hide AfterEntry, Closing;
    if ready != [] {
      var rest, last := ready[..|ready| - 1], ready[|ready| - 1];
      var m, v := AfterBatch(rest, fds, w), AfterBatch(ready, fds, w);
      OnlyTheWanted(rest, fds, w, fd);
      OneEntryCloses(last, fds, m, fd);
      assert forall k :: 0 <= k < |m.ran| ==> m.ran[k] == v.ran[k];
      assert forall k :: 0 <= k < |rest| ==> ready[k] == rest[k];
      if Wanted([last], fd) {
        assert ready[|rest|] == [last][0];
      }
    }
  }

  /** These tasks are those of the calls to post, in order: `at` are the places of those calls. */
  predicate PostedAt(actions: seq<Action>, posted: seq<Task>, at: seq<nat>) {
    && |at| == |posted| && (forall i, j :: 0 <= i < j < |at| ==> at[i] < at[j])
    && (forall i :: 0 <= i < |at| ==> at[i] < |actions| && actions[at[i]] == Post(posted[i]))
    && forall k: nat :: k < |actions| && actions[k].Post? ==> k in at
  }

  lemma PostedNext(actions: seq<Action>, last: Action, posted: seq<Task>, at: seq<nat>)
    requires PostedAt(actions, posted, at)
    ensures if last.Post? then PostedAt(actions + [last], posted + [last.task], at + [|actions|]) else PostedAt(actions + [last], posted, at)
  {
    var all := actions + [last];
    forall k: nat | k < |all| && all[k].Post? ensures k in at + [|actions|] && (k < |actions| ==> k in at) {
      if k < |actions| {
        assert actions[k].Post?;
      }
    }
  }

  lemma {:induction false} PostedPlaces(actions: seq<Action>) returns (at: seq<nat>)
    ensures PostedAt(actions, Posted(actions), at)
  {
    if actions == [] {
      at := [];
    } else {
      var rest, last := actions[..|actions| - 1], actions[|actions| - 1];
      at := PostedPlaces(rest);
      PostedNext(rest, last, Posted(rest), at);
      hide PostedAt;
      assert rest + [last] == actions && Posted(rest) + [] == Posted(rest);
      if last.Post? {
        at := at + [|rest|];
      }
    }
  }

  /** Every entry of a registered handler and every ring of the bell is reported, in order: `at` are their places. */
  lemma {:induction false} ReportedPlaces(offered: seq<Ready>, fds: map<Handler, Fd>) returns (at: seq<nat>)
    ensures |at| == |Reported(offered, fds)|
    ensures forall i :: 0 <= i < |at| ==> at[i] < |offered| && Reported(offered, fds)[i] == offered[at[i]]
    ensures forall i, j :: 0 <= i < j < |at| ==> at[i] < at[j]
    ensures forall k: nat :: k < |offered| ==> (k in at <==> offered[k].Doorbell? || offered[k].target in fds)
  {
    if offered == [] {
      at := [];
    } else {
      var rest, n := offered[..|offered| - 1], |offered| - 1;
      at := ReportedPlaces(rest, fds);
      assert forall k: nat :: k < n ==> rest[k] == offered[k];
      if offered[n].Doorbell? || offered[n].target in fds {
        at := at + [n];
      }
    }
  }

  /** A list of calls that asks for these closes. */
  lemma {:induction false} Closes(fds: set<Fd>) returns (asked: seq<Action>)
    ensures Closing(asked) == fds && Posted(asked) == []
  {
    if fds == {} {
      asked := [];
    } else {
      var fd :| fd in fds;
      var rest := Closes(fds - {fd});
      asked := rest + [RequestClose(fd)];
      assert asked[..|rest|] == rest;
      assert asked[..|rest| + 1] == asked;
      ClosingNext(asked, |rest|);
    }
  }

  /** The sweep as an entry of a batch: its timer is readable, and its callback asks for closes. */
  predicate Swept(timer: Handler, fds: map<Handler, Fd>, asked: seq<Action>, w: Work, v: Work)
    requires timer in fds
  {
    AfterEntry(Of(timer, false, true, false, [], asked, []), fds, w) == v.(calls := w.calls + [OnReadable(timer)])
  }

  lemma SweptIs(timer: Handler, fds: map<Handler, Fd>, asked: seq<Action>, w: Work)
    requires timer in fds && Posted(asked) == []
    ensures Swept(timer, fds, asked, w, w.(pending := w.pending + Closing(asked)))
  {
    assert asked + [] == asked;
  }

  /** Of what the kernel has to offer, the entries of handlers that are registered. */
  function Reported(offered: seq<Ready>, fds: map<Handler, Fd>): (ready: seq<Ready>)
    ensures AllIn(ready, fds)
  {
    if offered == [] then []
    else
      var last := offered[|offered| - 1];
      Reported(offered[..|offered| - 1], fds) + if last.Doorbell? || last.target in fds then [last] else []
  }

  /** One turn, which ends with no close pending. */
  ghost predicate Round(offered: seq<Ready>, fds: map<Handler, Fd>, w: Work, v: Work) {
    v == AfterBatch(Reported(offered, fds), fds, w).(pending := {})
  }

  ghost predicate Rounds(offered: seq<seq<Ready>>, fds: seq<map<Handler, Fd>>, works: seq<Work>) {
    && |fds| == |offered| && |works| == |offered| + 1
    && forall k :: 0 <= k < |offered| ==> Round(offered[k], fds[k], works[k], works[k + 1])
  }

  /** What is in one map is in the other. */
  predicate Within(a: map<Handler, Fd>, b: map<Handler, Fd>) {
    forall h :: h in a ==> h in b && b[h] == a[h]
  }

  lemma WithinTrans(a: map<Handler, Fd>, b: map<Handler, Fd>, c: map<Handler, Fd>)
    requires Within(a, b) && Within(b, c)
    ensures Within(a, c)
  {
  }

  lemma {:induction false} ClosingOfBoth(a: seq<Action>, b: seq<Action>)
    ensures Closing(a + b) == Closing(a) + Closing(b)
  {
    var c := a + b;
    forall fd ensures fd in Closing(c) <==> fd in Closing(a) + Closing(b) {
      if fd in Closing(c) {
        var k :| 0 <= k < |c| && c[k].RequestClose? && c[k].fd == fd;
        assert if k < |a| then a[k] == c[k] else b[k - |a|] == c[k];
      }
      if fd in Closing(a) {
        var k :| 0 <= k < |a| && a[k].RequestClose? && a[k].fd == fd;
        assert c[k] == a[k];
      }
      if fd in Closing(b) {
        var k :| 0 <= k < |b| && b[k].RequestClose? && b[k].fd == fd;
        assert c[|a| + k] == b[k];
      }
    }
  }

  lemma {:induction false} PostedOfBoth(a: seq<Action>, b: seq<Action>)
    ensures Posted(a + b) == Posted(a) + Posted(b)
  {
    if b == [] {
      assert a + b == a;
    } else {
      var rest := b[..|b| - 1];
      PostedOfBoth(a, rest);
      assert (a + b)[..|a + b| - 1] == a + rest;
    }
  }

  lemma ClosingNext(actions: seq<Action>, k: nat)
    requires k < |actions|
    ensures Closing(actions[..k + 1]) == Closing(actions[..k]) + if actions[k].RequestClose? then {actions[k].fd} else {}
  {
    forall fd ensures fd in Closing(actions[..k + 1]) <==>
                      fd in Closing(actions[..k]) || (actions[k].RequestClose? && fd == actions[k].fd)
    {
      if fd in Closing(actions[..k + 1]) {
        var j :| 0 <= j < k + 1 && actions[j].RequestClose? && actions[j].fd == fd;
        assert j < k ==> actions[..k][j].RequestClose?;
      }
      if fd in Closing(actions[..k]) {
        var j :| 0 <= j < k && actions[..k][j].RequestClose? && actions[..k][j].fd == fd;
        assert actions[..k + 1][j] == actions[j];
      }
      assert actions[..k + 1][k] == actions[k];
    }
  }

  class Loop {
    var registered: map<Fd, Registration>   // the kernel's interest list
    var handlers: map<Fd, Handler>
    var pending: set<Fd>                    // pending_close_
    var tasks: seq<Task>
    var running: bool
    var bell: nat                           // the eventfd's counter
    var count: nat                          // objects handed over so far
    var fdOf: map<Handler, Fd>              // each object's own descriptor
    ghost var posted: seq<Task>
    ghost var taken: seq<Task>              // swapped out of the queue and not yet run
    ghost var ran: seq<Task>
    ghost var calls: seq<Call>
    ghost var dangling: bool                // a callback was made through a pointer to something destroyed
    ghost var destroyed: set<Handler>

    ghost predicate Alive(h: Handler)
      reads `handlers, `fdOf, `destroyed
    {
      h in fdOf && fdOf[h] in handlers && handlers[fdOf[h]] == h && h !in destroyed
    }

    /** The living handlers and their descriptors. */
    ghost function Living(): (m: map<Handler, Fd>)
      reads `handlers, `fdOf, `destroyed
      ensures forall h :: h in m <==> Alive(h)
    {
      map h | h in fdOf && Alive(h) :: fdOf[h]
    }

    /** The kernel's list and the loop's own table agree, and nothing in them is destroyed. */
    ghost predicate Table()
      reads `registered, `handlers, `fdOf, `count, `destroyed
    {
      && registered.Keys == handlers.Keys
      && (forall fd :: fd in handlers ==> registered[fd].target == handlers[fd])
      && (forall fd :: fd in handlers ==> handlers[fd] in fdOf && fdOf[handlers[fd]] == fd && handlers[fd] !in destroyed)
      && (forall h :: h in fdOf ==> h.id < count)
      && (forall h :: h in destroyed ==> h in fdOf)
    }

    /** No task is lost, and a queue has its bell rung. */
    ghost predicate Posts()
      reads `posted, `ran, `taken, `tasks, `bell
    {
      posted == ran + taken + tasks && (tasks != [] ==> bell > 0)
    }

    ghost predicate Inv()
      reads `registered, `handlers, `fdOf, `count, `destroyed, `posted, `ran, `taken, `tasks, `bell
    {
      Table() && Posts()
    }

    ghost function Doing(): Work
      reads `pending, `tasks, `ran, `calls
    {
      Work(pending, tasks, ran, calls)
    }

    constructor ()
      ensures Inv() && handlers == map[] && posted == [] && taken == [] && !dangling
    {
      registered := map[];
      handlers := map[];
      pending := {};
      tasks := [];
      running := true;
      bell := 0;
      count := 0;
      fdOf := map[];
      posted := [];
      taken := [];
      ran := [];
      calls := [];
      dangling := false;
      destroyed := {};
    }

    /** The kernel refuses a descriptor that is registered already; a refused handler is destroyed on the spot. */
    method AddHandler(fd: Fd, events: nat, accepted: bool)
      requires Table()
      modifies `registered, `handlers, `count, `fdOf, `destroyed
      ensures Table()
      ensures destroyed == old(destroyed) + if accepted && fd !in old(handlers) then {} else {Handler(old(count))}
      ensures handlers == if accepted && fd !in old(handlers) then old(handlers)[fd := Handler(old(count))] else old(handlers)
      ensures accepted && fd !in old(handlers) ==> Alive(Handler(old(count)))
      ensures registered == if accepted && fd !in old(handlers)
                            then old(registered)[fd := Registration(events, Handler(old(count)))] else old(registered)
      ensures Within(old(Living()), Living())
    {
      var handler := Handler(count);
      count := count + 1;
      fdOf := fdOf[handler := fd];
      if !accepted || fd in registered {
        destroyed := destroyed + {handler};
        return;
      }
      registered := registered[fd := Registration(events, handler)];
      handlers := handlers[fd := handler];
    }

    method UpdateEvents(fd: Fd, events: nat, accepted: bool)
      requires Table()
      modifies `registered
      ensures Table()
      ensures registered == if fd in handlers && accepted then old(registered)[fd := Registration(events, handlers[fd])]
                            else old(registered)
    {
      if fd !in handlers {
        return;
      }
      if accepted {
        registered := registered[fd := Registration(events, handlers[fd])];
      }
    }

    method PostTask(task: Task)
      requires Posts()
      modifies `tasks, `bell, `posted
      ensures Posts()
      ensures tasks == old(tasks) + [task] && posted == old(posted) + [task] && bell > 0
    {
      assert ran + taken + tasks + [task] == ran + taken + (tasks + [task]);
      tasks := tasks + [task];
      posted := posted + [task];
      bell := bell + 1;
    }

    /** One call. */
    method Act(action: Action)
      requires Inv()
      modifies `registered, `handlers, `count, `fdOf, `destroyed, `pending, `tasks, `bell, `posted, `running
      ensures Inv() && Within(old(Living()), Living())
      ensures pending == old(pending) + if action.RequestClose? then {action.fd} else {}
      ensures tasks == old(tasks) + if action.Post? then [action.task] else []
      ensures posted == old(posted) + if action.Post? then [action.task] else []
      ensures running == (old(running) && !action.Halt?)
    {
      hide Table, Alive;
      assert Within(Living(), Living());
      match action
      case Add(fd, events, accepted) => AddHandler(fd, events, accepted);
      case Update(fd, events, accepted) => UpdateEvents(fd, events, accepted);
      case RequestClose(fd) => pending := pending + {fd};
      case Post(task) => PostTask(task);
      case Halt =>
        running := false;
        bell := bell + 1;
    }

    /** What a callback or a task does, call by call. Nothing that lives is destroyed. */
    method Perform(actions: seq<Action>)
      requires Inv()
      modifies `registered, `handlers, `count, `fdOf, `destroyed, `pending, `tasks, `bell, `posted, `running
      ensures Inv() && Within(old(Living()), Living())
      ensures pending == old(pending) + Closing(actions)
      ensures tasks == old(tasks) + Posted(actions) && posted == old(posted) + Posted(actions)
      ensures running ==> old(running)
    {
      hide Table, Posts, Alive, Living, Within, Closing;
      SelfWithin();
      ClosingNothing();
      for k := 0 to |actions|
        invariant Inv() && Within(old(Living()), Living())
        invariant pending == old(pending) + Closing(actions[..k])
        invariant tasks == old(tasks) + Posted(actions[..k]) && posted == old(posted) + Posted(actions[..k])
        invariant running ==> old(running)
      {
        assert actions[..k + 1][..k] == actions[..k];
        ClosingNext(actions, k);
        ghost var was := Living();
        Act(actions[k]);
        WithinTrans(old(Living()), was, Living());
      }
      assert actions[..|actions|] == actions;
    }

    lemma SelfWithin()
      ensures Within(Living(), Living())
    {
    }

    lemma ClosingNothing()
      ensures Closing([]) == {}
    {
    }

    /** The bell is drained and the queue taken over as a whole; other threads may post in between. */
    method TakeTasks(between: seq<Task>) returns (local: seq<Task>)
      requires Posts() && taken == []
      modifies `tasks, `bell, `posted, `taken
      ensures Posts() && tasks == [] && local == taken == old(tasks) + between
      ensures posted == old(posted) + between
    {
      assert ran + [] + tasks + between == ran + (tasks + between) + [];
      bell := |between|;
      tasks := tasks + between;
      posted := posted + between;
      local := tasks;
      taken := local;
      tasks := [];
    }

    /** What the tasks themselves post waits for the next ring. */
    method RunPendingTasks(between: seq<Task>)
      requires Inv() && taken == []
      modifies `registered, `handlers, `count, `fdOf, `destroyed, `pending, `tasks, `bell, `posted, `running, `ran, `taken
      ensures Inv() && taken == [] && Within(old(Living()), Living())
      ensures ran == old(ran) + (old(tasks) + between)
      ensures tasks == PostedByAll(old(tasks) + between)
      ensures pending == old(pending) + ClosingByAll(old(tasks) + between)
      ensures old(posted) <= posted
    {
      hide Table, Posts, Alive, Living, Within, Closing, Posted;
      SelfWithin();
      var local := TakeTasks(between);
      for k := 0 to |local|
        invariant Inv() && Within(old(Living()), Living()) && old(posted) <= posted
        invariant ran == old(ran) + local[..k] && taken == local[k..]
        invariant tasks == PostedByAll(local[..k]) && pending == old(pending) + ClosingByAll(local[..k])
      {
        assert local[..k + 1][..k] == local[..k];
        ghost var was := Living();
        StartTask();
        Perform(local[k].actions);
        WithinTrans(old(Living()), was, Living());
      }
      assert local[..|local|] == local;
    }

    /** The next task that was taken over starts. */
    ghost method StartTask()
      requires Posts() && taken != []
      modifies `ran, `taken
      ensures Posts() && ran == old(ran) + [old(taken)[0]] && taken == old(taken)[1..]
    {
      assert taken == [taken[0]] + taken[1..];
      ran := ran + [taken[0]];
      taken := taken[1..];
    }

    method Invoke(call: Call, actions: seq<Action>)
      requires Inv() && Alive(call.target)
      requires call.OnWritable? ==> fdOf[call.target] !in pending
      modifies `registered, `handlers, `count, `fdOf, `destroyed, `pending, `tasks, `bell, `posted, `running, `calls, `dangling
      ensures Inv() && Within(old(Living()), Living()) && dangling == old(dangling)
      ensures calls == old(calls) + [call] && pending == old(pending) + Closing(actions)
      ensures tasks == old(tasks) + Posted(actions) && posted == old(posted) + Posted(actions)
    {
      hide Table, Posts, Living, Within, Closing, Posted;
      calls := calls + [call];
      dangling := dangling || !Alive(call.target);
      Perform(actions);
    }

    /** One entry of a batch. */
    method Dispatch(r: Ready, ghost fds: map<Handler, Fd>)
      requires Inv() && taken == [] && Within(fds, Living()) && (r.Of? ==> r.target in fds)
      modifies `registered, `handlers, `count, `fdOf, `destroyed, `pending, `tasks, `bell, `posted, `running, `ran, `taken, `calls, `dangling
      ensures Inv() && taken == [] && Within(fds, Living()) && dangling == old(dangling)
      ensures Doing() == AfterEntry(r, fds, old(Doing()))
      ensures old(posted) <= posted
    {
      hide Table, Posts, Alive, Within, Closing, Posted, Living;
      ghost var was := Living();
      match r
      case Doorbell(between) =>
        RunPendingTasks(between);
        WithinTrans(fds, was, Living());
      case Of(target, broken, readable, writable, onError, onReadable, onWritable) =>
        OneEntry(r, fds);
    }

    /** One entry that is not the doorbell. */
    method OneEntry(r: Ready, ghost fds: map<Handler, Fd>)
      requires Inv() && taken == [] && Within(fds, Living()) && r.Of? && r.target in fds
      modifies `registered, `handlers, `count, `fdOf, `destroyed, `pending, `tasks, `bell, `posted, `running, `calls, `dangling
      ensures Inv() && Within(fds, Living()) && dangling == old(dangling)
      ensures Doing() == AfterEntry(r, fds, old(Doing()))
      ensures old(posted) <= posted
    {
      hide Table, Posts, Alive, Within, Closing, Posted, Living;
      ClosingNothing();
      PostedNothing();
      if r.broken {
        CallBack(OnError(r.target), r.onError, fds);
        return;
      }
      if r.readable {
        CallBack(OnReadable(r.target), r.onReadable, fds);
      }
      Names(r.target, fds);
      if r.writable && fdOf[r.target] !in pending {
        CallBack(OnWritable(r.target), r.onWritable, fds);
      }
      ghost var first := if r.readable then r.onReadable else [];
      ClosingOfBoth(first, r.onWritable);
      PostedOfBoth(first, r.onWritable);
      assert first + [] == first;
    }

    lemma PostedNothing()
      ensures Posted([]) == []
    {
    }

    /** A callback of something in the batch. */
    method CallBack(call: Call, actions: seq<Action>, ghost fds: map<Handler, Fd>)
      requires Inv() && Within(fds, Living()) && call.target in fds
      requires call.OnWritable? ==> fds[call.target] !in pending
      modifies `registered, `handlers, `count, `fdOf, `destroyed, `pending, `tasks, `bell, `posted, `running, `calls, `dangling
      ensures Inv() && Within(fds, Living()) && dangling == old(dangling)
      ensures calls == old(calls) + [call] && pending == old(pending) + Closing(actions)
      ensures tasks == old(tasks) + Posted(actions) && posted == old(posted) + Posted(actions)
    {
      hide Table, Posts, Living, Within, Closing, Posted;
      ghost var was := Living();
      Names(call.target, fds);
      Invoke(call, actions);
      WithinTrans(fds, was, Living());
    }

    lemma Names(h: Handler, fds: map<Handler, Fd>)
      requires Within(fds, Living()) && h in fds
      ensures Alive(h) && fdOf[h] == fds[h]
    {
    }

    /** Exactly the handlers whose close was asked for are destroyed, and nothing else changes. */
    method ProcessPendingClose()
      requires Table()
      modifies `registered, `handlers, `pending, `destroyed
      ensures Table() && pending == {}
      ensures handlers == old(handlers) - old(pending)
      ensures forall h :: h in destroyed <==> h in old(destroyed) || (old(Alive(h)) && fdOf[h] in old(pending))
    {
      var todo := pending;
      while todo != {}
        invariant Table() && todo <= pending == old(pending)
        invariant handlers == old(handlers) - (pending - todo)
        invariant forall h :: h in destroyed <==> h in old(destroyed) || (old(Alive(h)) && fdOf[h] in pending - todo)
        decreases todo
      {
        var fd :| fd in todo;
        todo := todo - {fd};
        Erase(fd);
      }
      pending := {};
    }

    /** The kernel and the table forget a descriptor, and its handler is destroyed. */
    method Erase(fd: Fd)
      requires Table()
      modifies `registered, `handlers, `destroyed
      ensures Table() && handlers == old(handlers) - {fd}
      ensures destroyed == old(destroyed) + if fd in old(handlers) then {old(handlers)[fd]} else {}
    {
      registered := registered - {fd};
      if fd in handlers {
        destroyed := destroyed + {handlers[fd]};
      }
      handlers := handlers - {fd};
    }

    /** The timeout sweep: a handler may only ask for closes. The table itself does not change, and what is asked is what
        the callback of the sweep's timer asks, as one entry of a batch. */
    method SweepTimeouts(reactions: map<Fd, set<Fd>>) returns (ghost asked: seq<Action>)
      modifies `pending
      ensures forall fd :: fd in pending <==>
                fd in old(pending) || exists at :: at in handlers && at in reactions && fd in reactions[at]
      ensures pending == old(pending) + Closing(asked) && Posted(asked) == []
      ensures forall timer: Handler, fds: map<Handler, Fd> :: timer in fds ==>
                Swept(timer, fds, asked, old(Doing()), Doing())
    {
      ghost var found: set<Fd> := {};
      var todo := handlers.Keys;
      while todo != {}
        invariant todo <= handlers.Keys && pending == old(pending) + found
        invariant forall fd :: fd in found <==>
                    exists at :: at in handlers && at !in todo && at in reactions && fd in reactions[at]
        decreases todo
      {
        var at :| at in todo;
        todo := todo - {at};
        if at in reactions {
          pending := pending + reactions[at];
          found := found + reactions[at];
        }
      }
      asked := Closes(found);
      forall timer: Handler, fds: map<Handler, Fd> | timer in fds ensures Swept(timer, fds, asked, old(Doing()), Doing()) {
        SweptIs(timer, fds, asked, old(Doing()));
      }
    }

    /** epoll_wait reports registered descriptors only. */
    method Wait(offered: seq<Ready>) returns (ready: seq<Ready>)
      requires Table()
      ensures ready == Reported(offered, Living())
    {
      ready := [];
      for k := 0 to |offered|
        invariant ready == Reported(offered[..k], Living())
      {
        assert offered[..k + 1][..k] == offered[..k];
        if offered[k].Doorbell? || exists fd :: fd in registered && registered[fd].target == offered[k].target {
          ready := ready + [offered[k]];
        }
      }
      assert offered[..|offered|] == offered;
    }

    /** One turn of the loop. The batch is worked off entry by entry, in order; whatever the callbacks do, no pointer of
        the batch dangles when it is called through, and what asked to be closed is destroyed when the batch is over. */
    method Turn(ready: seq<Ready>)
      requires Inv() && taken == [] && AllIn(ready, Living())
      modifies this
      ensures Inv() && taken == [] && dangling == old(dangling)
      ensures Doing() == AfterBatch(ready, old(Living()), old(Doing())).(pending := {})
      ensures forall h :: h in old(Living()) ==>
                (h in destroyed <==> old(Living())[h] in AfterBatch(ready, old(Living()), old(Doing())).pending)
      ensures old(posted) <= posted
      // The callbacks made are those that the entries deserve, and a handler is destroyed if its close was asked for.
      ensures exists marks, closing ::
                && Played(ready, old(Living()), calls, |old(calls)|, closing, marks)
                && forall h :: h in old(Living()) ==> (h in destroyed <==> old(Living())[h] in closing)
      ensures old(calls) <= calls && old(ran) <= ran
      ensures forall h :: h in old(Living()) && h in destroyed ==>
                var fd := old(Living())[h]; fd in old(pending) || Wanted(ready, fd) || WantedByTask(ran, |old(ran)|, fd)
    {
      hide Table, Posts, Alive, Living, Within, AfterEntry, Played, Wanted, WantedByTask;
      SelfWithin();
      ghost var fds := Living();
      ghost var marks := BatchPlays(ready, fds, Doing());
      for k := 0 to |ready|
        invariant Inv() && taken == [] && Within(fds, Living()) && dangling == old(dangling)
        invariant Doing() == AfterBatch(ready[..k], fds, old(Doing())) && old(posted) <= posted
      {
        assert ready[..k + 1][..k] == ready[..k];
        Dispatch(ready[k], fds);
      }
      assert ready[..|ready|] == ready;
      forall h | h in fds ensures fds[h] in pending ==> fds[h] in old(pending) || Wanted(ready, fds[h]) || WantedByTask(ran, |old(ran)|, fds[h]) {
        OnlyTheWanted(ready, fds, old(Doing()), fds[h]);
      }
      BatchGrows(ready, fds, old(Doing()));
      CloseBatch(fds);
    }

    /** The end of a batch. */
    method CloseBatch(ghost fds: map<Handler, Fd>)
      requires Table() && Within(fds, Living())
      modifies `registered, `handlers, `pending, `destroyed
      ensures Table() && pending == {}
      ensures forall h :: h in fds ==> (h in destroyed <==> fds[h] in old(pending))
    {
      hide Table;
      ProcessPendingClose();
    }

    /** Turns until someone stops the loop; `offered` is what the kernel would report. */
    method Run(offered: seq<seq<Ready>>) returns (ghost fds: seq<map<Handler, Fd>>, ghost works: seq<Work>)
      requires Inv() && taken == []
      modifies this
      ensures Inv() && old(posted) <= posted && old(ran) <= ran && dangling == old(dangling)
      ensures ran + tasks == posted
      ensures |fds| <= |offered| && (|fds| < |offered| ==> !running)
      ensures Rounds(offered[..|fds|], fds, works) && works[0] == old(Doing()) && works[|fds|] == Doing()
    {
      hide Closing, Table, Living, Alive, AfterBatch, Round;
      fds, works := [], [Doing()];
      var k := 0;
      while running && k < |offered|
        invariant k <= |offered| && Inv() && taken == [] && old(posted) <= posted && old(ran) <= ran && dangling == old(dangling)
        invariant |fds| == k && Rounds(offered[..k], fds, works) && works[0] == old(Doing()) && works[k] == Doing()
      {
        var ready := Wait(offered[k]);
        ghost var living, work := Living(), Doing();
        BatchGrows(ready, living, work);
        Turn(ready);
        RoundIs(offered[k], living, work, Doing());
        fds, works := fds + [living], works + [Doing()];
        k := k + 1;
      }
    }

    lemma RoundIs(offered: seq<Ready>, fds: map<Handler, Fd>, w: Work, v: Work)
      requires v == AfterBatch(Reported(offered, fds), fds, w).(pending := {})
      ensures Round(offered, fds, w, v)
    {
    }
  }

  /** The bell rings in a batch. */
  predicate Rings(ready: seq<Ready>) {
    ready != [] && (ready[|ready| - 1].Doorbell? || Rings(ready[..|ready| - 1]))
  }

  /** Nothing that was done or noted is undone, and what was queued has run if the bell rang. */
  predicate Grown(w: Work, v: Work, rang: bool) {
    && w.ran <= v.ran && w.calls <= v.calls && w.pending <= v.pending
    && if rang then w.ran + w.tasks <= v.ran else w.ran == v.ran && w.tasks <= v.tasks
  }

  lemma EntryGrows(r: Ready, fds: map<Handler, Fd>, w: Work)
    requires r.Of? ==> r.target in fds
    ensures Grown(w, AfterEntry(r, fds, w), r.Doorbell?)
  {
    hide Asked, Calls, Closing, Posted;
    if r.Doorbell? {
      AppendedPrefix(w.ran, w.tasks, w.tasks + r.between, w.ran + (w.tasks + r.between));
    }
  }

  lemma AppendedPrefix(s: seq<Task>, a: seq<Task>, b: seq<Task>, u: seq<Task>)
    requires a <= b && s + b <= u
    ensures s + a <= u
  {
    assert s + a == (s + b)[..|s| + |a|];
  }

  lemma GrownOn(w: Work, v: Work, u: Work, early: bool, late: bool)
    requires Grown(w, v, early) && Grown(v, u, late)
    ensures Grown(w, u, early || late)
  {
    if !early && late {
      AppendedPrefix(w.ran, w.tasks, v.tasks, u.ran);
    }
  }

  /** A batch only adds to what ran and to the callbacks made; a ring runs everything that was queued before it. */
  lemma {:induction false} BatchGrows(ready: seq<Ready>, fds: map<Handler, Fd>, w: Work)
    requires AllIn(ready, fds)
    ensures Grown(w, AfterBatch(ready, fds, w), Rings(ready))
  {
    if ready != [] {
      hide Grown, AfterEntry;
      var rest, last := ready[..|ready| - 1], ready[|ready| - 1];
      BatchGrows(rest, fds, w);
      EntryGrows(last, fds, AfterBatch(rest, fds, w));
      GrownOn(w, AfterBatch(rest, fds, w), AfterBatch(ready, fds, w), Rings(rest), last.Doorbell?);
    }
  }
}
