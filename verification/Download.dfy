/**
  A parallel, resumable download: workers take chunks from a shared list, fetch
  each with a range request until it is complete, write it into the file, and
  record it in a log from which an interrupted run resumes.

  A step is what one worker does between two points where another can run. A log
  line is appended whole or not at all, a chunk is written whole, and both survive
  a crash. Recording can fail, before or after its log line is written; the worker
  then fetches its chunk again.
*/
module Download {

  newtype byte = x: int | 0 <= x < 256

  const CHUNK := 4194304

  function Chunks(size: nat): nat { (size + CHUNK - 1) / CHUNK }

  function Lo(i: nat): nat { i * CHUNK }

  /** One past the chunk's last byte. */
  function Hi(size: nat, i: nat): nat {
    if size < Lo(i) + CHUNK then size else Lo(i) + CHUNK
  }

  /** Every byte of the file is in exactly one chunk, and every chunk has a byte. */
  lemma Tiles(size: nat, p: nat, i: nat)
    requires p < size
    ensures i < Chunks(size) ==> Lo(i) < Hi(size, i) <= size
    ensures p / CHUNK < Chunks(size)
    ensures Lo(i) <= p < Hi(size, i) <==> i == p / CHUNK
  {
  }

  lemma ChunkInFile(size: nat, i: nat)
    requires i < Chunks(size)
    ensures Lo(i) < Hi(size, i) <= size
  {
  }

  // ---------- specification ----------

  /** A worker has no chunk, is fetching one, has written one it has not recorded, or has returned. */
  datatype Worker = Idle | Fetching(idx: nat) | Written(idx: nat) | Returned

  datatype State = State(todo: seq<nat>, workers: seq<Worker>, done: set<nat>, log: seq<nat>, file: seq<byte>)

  /**
    What can happen next. RecordFails is a record that raises, with its log line
    written or not; Resume is a crash at this point and a new run.
  */
  datatype Action =
    | Pop(w: nat)
    | Answer(w: nat, status: int, data: seq<byte>)
    | Record(w: nat)
    | RecordFails(w: nat, logged: bool)
    | Resume(workers: nat)

  function Elements(s: seq<nat>): set<nat> { set x | x in s }

  /** The chunks of [from, to) that are not in `done`, in order. */
  function Missing(done: set<nat>, from: nat, to: nat): seq<nat>
    decreases if from < to then to - from else 0
  {
    if from >= to then []
    else (if from in done then [] else [from]) + Missing(done, from + 1, to)
  }

  /** A run that starts from the log and the file an earlier one may have left. */
  function Begin(size: nat, workers: nat, log: seq<nat>, file: seq<byte>): State {
    State(Missing(Elements(log), 0, Chunks(size)), seq(workers, _ => Idle), Elements(log), log, file)
  }

  function Put(file: seq<byte>, at: nat, data: seq<byte>): seq<byte>
    requires at + |data| <= |file|
  {
    file[..at] + data + file[at + |data|..]
  }

  /** An action that is not possible in a state changes nothing. */
  function Step(s: State, a: Action): State {
    match a
    case Pop(w) =>
      if w >= |s.workers| || s.workers[w] != Idle then s
      else if s.todo == [] then s.(workers := s.workers[w := Returned])
      else s.(todo := s.todo[1..], workers := s.workers[w := Fetching(s.todo[0])])
    case Answer(w, status, data) =>
      if w >= |s.workers| || !s.workers[w].Fetching? then s
      else
        var i := s.workers[w].idx;
        if status != 206 || Hi(|s.file|, i) < Lo(i) || |data| != Hi(|s.file|, i) - Lo(i) then s
        else s.(file := Put(s.file, Lo(i), data), workers := s.workers[w := Written(i)])
    case Record(w) =>
      if w >= |s.workers| || !s.workers[w].Written? then s
      else
        var i := s.workers[w].idx;
        s.(done := s.done + {i}, log := s.log + [i], workers := s.workers[w := Idle])
    case RecordFails(w, logged) =>
      if w >= |s.workers| || !s.workers[w].Written? then s
      else
        var i := s.workers[w].idx;
        s.(done := s.done + {i}, log := if logged then s.log + [i] else s.log, workers := s.workers[w := Fetching(i)])
    case Resume(n) => Begin(|s.file|, n, s.log, s.file)
  }

  /** A mirror's partial answer may be short, but its bytes are the source's. */
  predicate Honest(s: State, a: Action, source: seq<byte>) {
    a.Answer? && a.w < |s.workers| && s.workers[a.w].Fetching? && a.status == 206 ==>
      var i := s.workers[a.w].idx;
      Lo(i) <= Hi(|source|, i) ==> a.data <= source[Lo(i)..Hi(|source|, i)]
  }

  function Run(s: State, actions: seq<Action>): State {
    if actions == [] then s else Step(Run(s, actions[..|actions| - 1]), actions[|actions| - 1])
  }

  predicate AllHonest(s: State, actions: seq<Action>, source: seq<byte>) {
    forall k :: 0 <= k < |actions| ==> Honest(Run(s, actions[..k]), actions[k], source)
  }

  // ---------- what every step keeps ----------

  predicate Busy(w: Worker) { w.Fetching? || w.Written? }

  function InFlight(workers: seq<Worker>): set<nat> {
    set k | 0 <= k < |workers| && Busy(workers[k]) :: workers[k].idx
  }

  predicate Distinct(s: seq<nat>) {
    forall i, j :: 0 <= i < j < |s| ==> s[i] != s[j]
  }

  predicate OneEach(workers: seq<Worker>) {
    forall i, j :: 0 <= i < j < |workers| && Busy(workers[i]) && Busy(workers[j]) ==> workers[i].idx != workers[j].idx
  }

  predicate IsChunk(size: nat, i: nat) { i < Chunks(size) }

  function All(size: nat): set<nat> { set i: nat | i < Chunks(size) && IsChunk(size, i) }

  /**
    Every chunk is queued, in flight or logged; a queued one is neither of the
    others, and one in flight is with one worker only. Done in memory are the
    logged chunks, and possibly some in flight whose record has failed.
  */
  predicate Partition(s: State) {
    && Distinct(s.todo) && OneEach(s.workers)
    && Elements(s.todo) + InFlight(s.workers) + Elements(s.log) == All(|s.file|)
    && Elements(s.log) <= s.done <= Elements(s.log) + InFlight(s.workers)
    && Elements(s.todo) !! InFlight(s.workers) && Elements(s.todo) !! s.done
    && (Returned in s.workers ==> s.todo == [])
  }

  /** As long as no record fails: no chunk in flight is done, and each is logged once. */
  predicate Clean(s: State) {
    InFlight(s.workers) !! s.done && Distinct(s.log)
  }

  predicate ChunkRight(file: seq<byte>, source: seq<byte>, i: nat) {
    && |file| == |source| && Lo(i) <= Hi(|source|, i) && Hi(|source|, i) <= |source|
    && file[Lo(i)..Hi(|source|, i)] == source[Lo(i)..Hi(|source|, i)]
  }

  /** Every recorded chunk, and every chunk about to be, already has its bytes in the file. */
  predicate BytesRight(s: State, source: seq<byte>) {
    && |s.file| == |source|
    && (forall i :: i in s.done ==> ChunkRight(s.file, source, i))
    && (forall k :: 0 <= k < |s.workers| && s.workers[k].Written? ==> ChunkRight(s.file, source, s.workers[k].idx))
  }

  predicate Inv(s: State, source: seq<byte>) { Partition(s) && BytesRight(s, source) }

  lemma {:induction false} MissingElements(done: set<nat>, from: nat, to: nat)
    requires from <= to
    ensures forall i: nat :: i in Missing(done, from, to) <==> from <= i < to && i !in done
    ensures Distinct(Missing(done, from, to))
    decreases if from < to then to - from else 0
  {
    if from < to {
      MissingElements(done, from + 1, to);
    }
  }

  lemma BeginPartition(n: nat, log: seq<nat>, file: seq<byte>)
    requires Elements(log) <= All(|file|)
    ensures Partition(Begin(|file|, n, log, file)) && (Distinct(log) ==> Clean(Begin(|file|, n, log, file)))
  {
    var size := |file|;
    MissingElements(Elements(log), 0, Chunks(size));
    var s := Begin(size, n, log, file);
    assert InFlight(s.workers) == {};
    assert Elements(s.todo) + s.done == All(size);
  }

  lemma BeginKeeps(size: nat, n: nat, log: seq<nat>, file: seq<byte>, source: seq<byte>)
    requires |file| == |source| == size && Elements(log) <= All(size)
    requires forall i :: i in log ==> ChunkRight(file, source, i)
    ensures Inv(Begin(size, n, log, file), source)
  {
    hide ChunkRight;
    BeginPartition(n, log, file);
  }

  /** Changing one worker changes the chunks in flight by that worker's. */
  lemma InFlightUpdate(workers: seq<Worker>, w: nat, x: Worker)
    requires w < |workers| && OneEach(workers)
    ensures var lost := if Busy(workers[w]) then {workers[w].idx} else {};
            var won := if Busy(x) then {x.idx} else {};
            InFlight(workers[w := x]) == InFlight(workers) - lost + won
  {
    var after := workers[w := x];
    forall k | 0 <= k < |workers| && k != w
      ensures after[k] == workers[k]
    {
    }
    forall c | c in InFlight(workers) && (Busy(workers[w]) ==> c != workers[w].idx)
      ensures c in InFlight(after)
    {
      var k :| 0 <= k < |workers| && Busy(workers[k]) && workers[k].idx == c;
      assert after[k] == workers[k];
    }
    if Busy(x) {
      assert after[w] == x;
    }
  }

  lemma PopKeepsPartition(s: State, w: nat)
    requires Partition(s)
    ensures Partition(Step(s, Pop(w)))
  {
    if w < |s.workers| && s.workers[w] == Idle {
      var t := Step(s, Pop(w));
      if s.todo == [] {
        InFlightUpdate(s.workers, w, Returned);
      } else {
        InFlightUpdate(s.workers, w, Fetching(s.todo[0]));
        assert s.todo == [s.todo[0]] + t.todo;
        assert Elements(s.todo) == {s.todo[0]} + Elements(t.todo);
        forall k | 0 <= k < |s.workers| && Busy(s.workers[k])
          ensures s.workers[k].idx != s.todo[0]
        {
          assert s.workers[k].idx in InFlight(s.workers);
        }
      }
    }
  }

  lemma AnswerKeepsPartition(s: State, w: nat, status: int, data: seq<byte>)
    requires Partition(s)
    ensures Partition(Step(s, Answer(w, status, data)))
  {
    if w < |s.workers| && s.workers[w].Fetching? {
      InFlightUpdate(s.workers, w, Written(s.workers[w].idx));
    }
  }

  lemma RecordKeepsPartition(s: State, w: nat)
    requires Partition(s)
    ensures Partition(Step(s, Record(w)))
  {
    if w < |s.workers| && s.workers[w].Written? {
      var t := Step(s, Record(w));
      var i := s.workers[w].idx;
      assert i in InFlight(s.workers);
      InFlightUpdate(s.workers, w, Idle);
      assert Elements(t.log) == Elements(s.log) + {i};
    }
  }

  lemma RecordFailsKeepsPartition(s: State, w: nat, logged: bool)
    requires Partition(s)
    ensures Partition(Step(s, RecordFails(w, logged)))
  {
    if w < |s.workers| && s.workers[w].Written? {
      var t := Step(s, RecordFails(w, logged));
      var i := s.workers[w].idx;
      assert i in InFlight(s.workers);
      InFlightUpdate(s.workers, w, Fetching(i));
      assert Elements(t.log) == if logged then Elements(s.log) + {i} else Elements(s.log);
    }
  }

  lemma StepKeepsClean(s: State, a: Action)
    requires Partition(s) && Clean(s) && !a.RecordFails?
    ensures Clean(Step(s, a))
  {
    match a
    case Pop(w) =>
      if w < |s.workers| && s.workers[w] == Idle {
        InFlightUpdate(s.workers, w, if s.todo == [] then Returned else Fetching(s.todo[0]));
        assert s.todo != [] ==> s.todo[0] in Elements(s.todo);
      }
    case Answer(w, _, _) =>
      if w < |s.workers| && s.workers[w].Fetching? {
        InFlightUpdate(s.workers, w, Written(s.workers[w].idx));
      }
    case Record(w) =>
      if w < |s.workers| && s.workers[w].Written? {
        InFlightUpdate(s.workers, w, Idle);
        assert s.workers[w].idx in InFlight(s.workers);
        assert forall k :: 0 <= k < |s.log| ==> s.log[k] in Elements(s.log);
      }
    case Resume(n) =>
      assert Elements(s.log) <= All(|s.file|);
      BeginPartition(n, s.log, s.file);
  }

  /** In a run in which no record fails, no chunk in flight is done, and the log names each once. */
  lemma {:induction false} RunKeepsClean(s: State, actions: seq<Action>)
    requires Partition(s) && Clean(s) && forall k :: 0 <= k < |actions| ==> !actions[k].RecordFails?
    ensures Clean(Run(s, actions))
  {
    hide Partition, Clean, Step;
    if actions != [] {
      RunKeepsClean(s, actions[..|actions| - 1]);
      RunKeepsPartition(s, actions[..|actions| - 1]);
      StepKeepsClean(Run(s, actions[..|actions| - 1]), actions[|actions| - 1]);
    }
  }

  /** Writing one chunk leaves every other chunk's bytes. */
  lemma PutOther(file: seq<byte>, source: seq<byte>, i: nat, data: seq<byte>, j: nat)
    requires |file| == |source| && i < Chunks(|source|) && j < Chunks(|source|) && i != j
    requires |data| == Hi(|source|, i) - Lo(i)
    requires Lo(i) + |data| <= |file|
    ensures ChunkRight(file, source, j) ==> ChunkRight(Put(file, Lo(i), data), source, j)
  {
    var after := Put(file, Lo(i), data);
    assert |after| == |file|;
    assert i < j ==> Hi(|source|, i) <= Lo(j);
    assert j < i ==> Hi(|source|, j) <= Lo(i);
    forall p | Lo(j) <= p < Hi(|source|, j) && p < |file|
      ensures after[p] == file[p]
    {
    }
    if ChunkRight(file, source, j) {
      assert after[Lo(j)..Hi(|source|, j)] == file[Lo(j)..Hi(|source|, j)];
    }
  }

  /** A whole answer from an honest mirror makes its chunk right. */
  lemma PutOwn(file: seq<byte>, source: seq<byte>, i: nat, data: seq<byte>)
    requires |file| == |source| && i < Chunks(|source|)
    requires Lo(i) <= Hi(|source|, i) <= |source| && data == source[Lo(i)..Hi(|source|, i)]
    ensures ChunkRight(Put(file, Lo(i), data), source, i)
  {
    var after := Put(file, Lo(i), data);
    assert after[Lo(i)..Hi(|source|, i)] == data;
  }

  lemma PlacesInRange(s: State)
    requires Partition(s)
    ensures forall i :: i in s.done ==> i < Chunks(|s.file|)
    ensures forall k :: 0 <= k < |s.workers| && Busy(s.workers[k]) ==> s.workers[k].idx < Chunks(|s.file|)
  {
    forall k | 0 <= k < |s.workers| && Busy(s.workers[k])
      ensures s.workers[k].idx < Chunks(|s.file|)
    {
      assert s.workers[k].idx in InFlight(s.workers);
      assert s.workers[k].idx in All(|s.file|);
    }
    forall i | i in s.done
      ensures i < Chunks(|s.file|)
    {
      assert i in All(|s.file|);
    }
  }

  lemma AnswerKeepsBytes(s: State, w: nat, status: int, data: seq<byte>, source: seq<byte>)
    requires Inv(s, source) && Honest(s, Answer(w, status, data), source)
    ensures BytesRight(Step(s, Answer(w, status, data)), source)
  {
    PlacesInRange(s);
    var t := Step(s, Answer(w, status, data));
    if t != s {
      var i := s.workers[w].idx;
      ChunkInFile(|source|, i);
      assert data == source[Lo(i)..Hi(|source|, i)];
      hide ChunkRight;
      PutOwn(s.file, source, i, data);
      forall j | j in s.done
        ensures ChunkRight(t.file, source, j)
      {
        if j != i {
          PutOther(s.file, source, i, data, j);
        }
      }
      forall k | 0 <= k < |t.workers| && t.workers[k].Written?
        ensures ChunkRight(t.file, source, t.workers[k].idx)
      {
        if k != w {
          assert s.workers[k].idx != i;
          PutOther(s.file, source, i, data, s.workers[k].idx);
        }
      }
    }
  }

  lemma StepKeepsInv(s: State, a: Action, source: seq<byte>)
    requires Inv(s, source) && Honest(s, a, source)
    ensures Inv(Step(s, a), source)
  {
    hide ChunkRight;
    match a
    case Pop(w) => PopKeepsPartition(s, w);
    case Answer(w, status, data) =>
      AnswerKeepsPartition(s, w, status, data);
      AnswerKeepsBytes(s, w, status, data, source);
    case Record(w) => RecordKeepsPartition(s, w);
    case RecordFails(w, logged) => RecordFailsKeepsPartition(s, w, logged);
    case Resume(n) =>
      assert Elements(s.log) <= All(|s.file|);
      BeginKeeps(|s.file|, n, s.log, s.file, source);
  }

  /**
    Over any number of workers, any schedule, any failed or short answers, any
    failed records and any number of crashes: no chunk is lost or with two workers,
    and what is logged is in the file.
  */
  lemma {:induction false} RunKeepsInv(n: nat, file: seq<byte>, actions: seq<Action>, source: seq<byte>)
    requires |file| == |source| && AllHonest(Begin(|source|, n, [], file), actions, source)
    ensures Inv(Run(Begin(|source|, n, [], file), actions), source)
  {
    hide Inv, Step, Honest;
    var s := Begin(|source|, n, [], file);
    if actions == [] {
      BeginKeeps(|source|, n, [], file, source);
    } else {
      var k := |actions| - 1;
      forall j | 0 <= j < k
        ensures Honest(Run(s, actions[..k][..j]), actions[..k][j], source)
      {
        assert actions[..k][..j] == actions[..j];
      }
      RunKeepsInv(n, file, actions[..k], source);
      StepKeepsInv(Run(s, actions[..k]), actions[k], source);
    }
  }

  lemma NoElements(s: seq<nat>)
    ensures Elements(s) == {} <==> s == []
  {
    if s != [] {
      assert s[0] in Elements(s);
    }
  }

  predicate Finished(s: State) {
    forall k :: 0 <= k < |s.workers| ==> s.workers[k] == Returned
  }

  /** When every worker has returned, and there was one, the file is the source. */
  lemma FinishedIsComplete(s: State, source: seq<byte>)
    requires Inv(s, source) && Finished(s) && (|s.workers| > 0 || source == [])
    ensures s.file == source && s.todo == [] && s.done == All(|source|)
  {
    if |s.workers| > 0 {
      assert s.workers[0] == Returned;
    } else {
      assert All(|source|) == {};
    }
    NoElements(s.todo);
    assert InFlight(s.workers) == {} && Elements(s.todo) == {};
    forall p | 0 <= p < |source|
      ensures s.file[p] == source[p]
    {
      var i := p / CHUNK;
      Tiles(|source|, p, i);
      assert IsChunk(|source|, i) && i in All(|source|) && i in s.done;
      assert s.file[p] == s.file[Lo(i)..Hi(|source|, i)][p - Lo(i)];
      assert source[p] == source[Lo(i)..Hi(|source|, i)][p - Lo(i)];
    }
  }

  /** The whole download, crashes and resumed runs included. */
  lemma DownloadCompletes(n: nat, file: seq<byte>, actions: seq<Action>, source: seq<byte>)
    requires |file| == |source| && AllHonest(Begin(|source|, n, [], file), actions, source)
    ensures var s := Run(Begin(|source|, n, [], file), actions);
            Finished(s) && |s.workers| > 0 ==> s.file == source
  {
    hide Inv, Step;
    RunKeepsInv(n, file, actions, source);
    var s := Run(Begin(|source|, n, [], file), actions);
    if Finished(s) && |s.workers| > 0 {
      FinishedIsComplete(s, source);
    }
  }

  /** Without workers the run ends at once, whatever the file holds. */
  lemma NoWorkersNoFile(file: seq<byte>)
    ensures Finished(Begin(|file|, 0, [], file)) && Begin(|file|, 0, [], file).file == file
    ensures file != [] ==> Begin(|file|, 0, [], file).todo != []
  {
    if file != [] {
      MissingElements({}, 0, Chunks(|file|));
      assert 0 in Missing({}, 0, Chunks(|file|));
    }
  }

  /** Every crash in the run is followed by a new one with as many workers. */
  predicate SameWorkers(actions: seq<Action>, n: nat) {
    forall k :: 0 <= k < |actions| && actions[k].Resume? ==> actions[k].workers == n
  }

  lemma {:induction false} RunWorkers(s: State, actions: seq<Action>, n: nat)
    requires |s.workers| == n && SameWorkers(actions, n)
    ensures |Run(s, actions).workers| == n && |Run(s, actions).file| == |s.file|
  {
    if actions != [] {
      RunWorkers(s, actions[..|actions| - 1], n);
    }
  }

  /** If this run has finished, the file is the source. */
  ghost predicate EndsRight(n: nat, file: seq<byte>, actions: seq<Action>, source: seq<byte>) {
    var s := Run(Begin(|source|, n, [], file), actions);
    && |file| == |source| && SameWorkers(actions, n) && Finished(s)
    && AllHonest(Begin(|source|, n, [], file), actions, source)
    ==> s.file == source
  }

  /** Every finished download is complete exactly if there are workers or there is nothing to fetch. */
  lemma DownloadExactly(n: nat, source: seq<byte>)
    ensures (forall file, actions :: EndsRight(n, file, actions, source)) <==> n > 0 || source == []
  {
    hide Step, Inv, AllHonest;
    if n > 0 || source == [] {
      forall file, actions
        ensures EndsRight(n, file, actions, source)
      {
        if |file| == |source| && SameWorkers(actions, n) {
          RunWorkers(Begin(|source|, n, [], file), actions, n);
          if AllHonest(Begin(|source|, n, [], file), actions, source) {
            DownloadCompletes(n, file, actions, source);
          }
        }
      }
    } else {
      var file := source[0 := if source[0] == 0 then 1 else 0];
      assert file[0] != source[0];
      assert AllHonest(Begin(|source|, n, [], file), [], source) by {
        NoStepsHonest(Begin(|source|, n, [], file), source);
      }
      assert !EndsRight(n, file, [], source);
    }
  }

  lemma NoStepsHonest(s: State, source: seq<byte>)
    ensures AllHonest(s, [], source)
  {
  }

  // ---------- how long a run takes ----------

  /** The steps a worker still has to take by itself. */
  function StepsOf(w: Worker): nat {
    match w
    case Idle => 1
    case Fetching(_) => 3
    case Written(_) => 2
    case Returned => 0
  }

  function WorkerSteps(workers: seq<Worker>): nat
    decreases |workers|
  {
    if workers == [] then 0 else WorkerSteps(workers[..|workers| - 1]) + StepsOf(workers[|workers| - 1])
  }

  /** The steps left before every worker has returned: three for each queued chunk. */
  function StepsLeft(s: State): nat { 3 * |s.todo| + WorkerSteps(s.workers) }

  lemma {:induction false} WorkerStepsUpdate(workers: seq<Worker>, w: nat, x: Worker)
    requires w < |workers|
    ensures WorkerSteps(workers[w := x]) == WorkerSteps(workers) - StepsOf(workers[w]) + StepsOf(x)
    decreases |workers|
  {
    var n := |workers| - 1;
    if w == n {
      assert workers[w := x][..n] == workers[..n];
    } else {
      WorkerStepsUpdate(workers[..n], w, x);
      assert workers[w := x][..n] == workers[..n][w := x];
    }
  }

  /**
    Every step that changes anything, short of a crash, is exactly one step nearer
    the end; a failed record is one step further away.
  */
  lemma StepCosts(s: State, a: Action)
    requires !a.Resume? && Step(s, a) != s
    ensures StepsLeft(Step(s, a)) == if a.RecordFails? then StepsLeft(s) + 1 else StepsLeft(s) - 1
  {
    hide WorkerSteps;
    WorkerStepsUpdate(s.workers, a.w, Step(s, a).workers[a.w]);
  }

  /** The steps of a run that changed something. */
  function Changes(s: State, actions: seq<Action>): nat {
    if actions == [] then 0
    else
      var pre := actions[..|actions| - 1];
      Changes(s, pre) + if Step(Run(s, pre), actions[|actions| - 1]) != Run(s, pre) then 1 else 0
  }

  /** The records of a run that failed. */
  function Failures(s: State, actions: seq<Action>): nat {
    if actions == [] then 0
    else
      var pre, last := actions[..|actions| - 1], actions[|actions| - 1];
      Failures(s, pre) + if last.RecordFails? && Step(Run(s, pre), last) != Run(s, pre) then 1 else 0
  }

  /**
    So a run without a crash has exactly as many effective steps as it has come
    nearer the end, and two more for every failed record.
  */
  lemma {:induction false} RunLength(s: State, actions: seq<Action>)
    requires forall k :: 0 <= k < |actions| ==> !actions[k].Resume?
    ensures Changes(s, actions) + StepsLeft(Run(s, actions)) == StepsLeft(s) + 2 * Failures(s, actions)
  {
    hide Step, StepsLeft;
    if actions != [] {
      var pre := actions[..|actions| - 1];
      RunLength(s, pre);
      if Step(Run(s, pre), actions[|actions| - 1]) != Run(s, pre) {
        StepCosts(Run(s, pre), actions[|actions| - 1]);
      }
    }
  }

  // ---------- no chunk is fetched twice ----------

  /** This action writes chunk c into the file. */
  predicate Writes(s: State, a: Action, c: nat) {
    a.Answer? && a.w < |s.workers| && s.workers[a.w] == Fetching(c) && Step(s, a).workers[a.w] == Written(c)
  }

  /** This action sends a worker back to fetch chunk c again. */
  predicate Refetches(s: State, a: Action, c: nat) {
    a.RecordFails? && a.w < |s.workers| && s.workers[a.w] == Written(c)
  }

  /** Chunk c is neither queued nor being fetched. */
  predicate Settled(s: State, c: nat) { c !in s.todo && Fetching(c) !in s.workers }

  /** Chunk c is logged, and no worker has it. */
  predicate Kept(s: State, c: nat) { c in s.log && c !in InFlight(s.workers) }

  lemma StepSettles(s: State, a: Action, c: nat)
    requires Partition(s) && !a.Resume? && !Refetches(s, a, c)
    ensures Settled(s, c) || Writes(s, a, c) ==> Settled(Step(s, a), c)
    ensures Settled(s, c) ==> !Writes(s, a, c)
  {
    hide All, Distinct, Put;
    if Writes(s, a, c) {
      assert c in InFlight(s.workers) && (c in s.todo ==> c in Elements(s.todo));
    }
  }

  lemma StepKeepsKept(s: State, a: Action, c: nat)
    requires Partition(s) && Kept(s, c)
    ensures Kept(Step(s, a), c) && !Writes(s, a, c)
  {
    hide All, Distinct, Put;
    assert c in Elements(s.log);
    match a
    case Pop(w) =>
      if w < |s.workers| && s.workers[w] == Idle {
        InFlightUpdate(s.workers, w, if s.todo == [] then Returned else Fetching(s.todo[0]));
        assert s.todo != [] ==> s.todo[0] in Elements(s.todo);
      }
    case Answer(w, _, _) =>
      if w < |s.workers| && s.workers[w].Fetching? {
        InFlightUpdate(s.workers, w, Written(s.workers[w].idx));
        assert s.workers[w].idx in InFlight(s.workers);
      }
    case Record(w) =>
      if w < |s.workers| && s.workers[w].Written? {
        InFlightUpdate(s.workers, w, Idle);
      }
    case RecordFails(w, _) =>
      if w < |s.workers| && s.workers[w].Written? {
        InFlightUpdate(s.workers, w, Fetching(s.workers[w].idx));
        assert s.workers[w].idx in InFlight(s.workers);
      }
    case Resume(n) =>
  }

  lemma StepKeepsPartition(s: State, a: Action)
    requires Partition(s)
    ensures Partition(Step(s, a))
  {
    match a
    case Pop(w) => PopKeepsPartition(s, w);
    case Answer(w, status, data) => AnswerKeepsPartition(s, w, status, data);
    case Record(w) => RecordKeepsPartition(s, w);
    case RecordFails(w, logged) => RecordFailsKeepsPartition(s, w, logged);
    case Resume(n) =>
      assert Elements(s.log) <= All(|s.file|);
      BeginPartition(n, s.log, s.file);
  }

  lemma {:induction false} RunKeepsPartition(s: State, actions: seq<Action>)
    requires Partition(s)
    ensures Partition(Run(s, actions))
  {
    hide Partition, Step;
    if actions != [] {
      RunKeepsPartition(s, actions[..|actions| - 1]);
      StepKeepsPartition(Run(s, actions[..|actions| - 1]), actions[|actions| - 1]);
    }
  }

  lemma RunOne(s: State, actions: seq<Action>, k: nat)
    requires k < |actions|
    ensures Run(s, actions[..k + 1]) == Step(Run(s, actions[..k]), actions[k])
  {
    hide Step;
    assert actions[..k + 1][..k] == actions[..k];
  }

  /** What is logged and left alone stays so, crashes included. */
  lemma {:induction false} StaysKept(s: State, actions: seq<Action>, j: nat, k: nat, c: nat)
    requires Partition(s) && j <= k <= |actions| && Kept(Run(s, actions[..j]), c)
    ensures Kept(Run(s, actions[..k]), c)
    decreases k
  {
    hide Partition, Step, Run, Kept;
    if j < k {
      StaysKept(s, actions, j, k - 1, c);
      RunKeepsPartition(s, actions[..k - 1]);
      StepKeepsKept(Run(s, actions[..k - 1]), actions[k - 1], c);
      RunOne(s, actions, k - 1);
    }
  }

  /** The action is a crash, or a failed record of chunk c. */
  predicate SetsBack(s: State, a: Action, c: nat) { a.Resume? || Refetches(s, a, c) }

  lemma {:induction false} StaysSettled(s: State, actions: seq<Action>, j: nat, k: nat, c: nat)
    requires Partition(s) && j <= k <= |actions| && Settled(Run(s, actions[..j]), c)
    requires forall m :: j <= m < k ==> !SetsBack(Run(s, actions[..m]), actions[m], c)
    ensures Settled(Run(s, actions[..k]), c)
    decreases k
  {
    hide Partition, Step, Run, Settled, Refetches;
    if j < k {
      StaysSettled(s, actions, j, k - 1, c);
      RunKeepsPartition(s, actions[..k - 1]);
      StepSettles(Run(s, actions[..k - 1]), actions[k - 1], c);
      RunOne(s, actions, k - 1);
    }
  }

  /**
    Over any schedule, from mirrors of any kind: a chunk is written into the file
    a second time only after a crash or a failed record of it, and never once it
    is in the log and no worker has it.
  */
  lemma WrittenOnce(s: State, actions: seq<Action>, j: nat, k: nat, c: nat)
    requires Partition(s) && j < k < |actions| && Writes(Run(s, actions[..k]), actions[k], c)
    ensures Writes(Run(s, actions[..j]), actions[j], c) ==>
              exists m :: j < m < k && SetsBack(Run(s, actions[..m]), actions[m], c)
    ensures !Kept(Run(s, actions[..j]), c)
  {
    hide Step, Run, Partition, Writes, Settled, Kept, Refetches;
    RunKeepsPartition(s, actions[..j]);
    RunKeepsPartition(s, actions[..k]);
    WriteAnswers(Run(s, actions[..k]), actions[k], c);
    if Kept(Run(s, actions[..j]), c) {
      StaysKept(s, actions, j, k, c);
      StepKeepsKept(Run(s, actions[..k]), actions[k], c);
    }
    if Writes(Run(s, actions[..j]), actions[j], c)
       && forall m :: j < m < k ==> !SetsBack(Run(s, actions[..m]), actions[m], c)
    {
      WriteAnswers(Run(s, actions[..j]), actions[j], c);
      StepSettles(Run(s, actions[..j]), actions[j], c);
      RunOne(s, actions, j);
      StaysSettled(s, actions, j + 1, k, c);
      StepSettles(Run(s, actions[..k]), actions[k], c);
      assert false;
    }
  }

  lemma WriteAnswers(s: State, a: Action, c: nat)
    requires Writes(s, a, c)
    ensures a.Answer? && !Refetches(s, a, c)
  {
  }

  /** A failed record does have its chunk written twice, without a crash, from every state in which it is fetched. */
  lemma FailedRecordRefetches(s: State, w: nat, data: seq<byte>, logged: bool)
    requires Partition(s) && w < |s.workers| && s.workers[w].Fetching?
    requires |data| == Hi(|s.file|, s.workers[w].idx) - Lo(s.workers[w].idx)
    ensures var c := s.workers[w].idx;
            var answer := Answer(w, 206, data);
            Writes(s, answer, c) && Writes(Step(Step(s, answer), RecordFails(w, logged)), answer, c)
  {
    PlacesInRange(s);
    ChunkInFile(|s.file|, s.workers[w].idx);
  }

  // ---------- chunks are taken in order ----------

  predicate Ascends(s: seq<nat>) {
    forall i, j :: 0 <= i < j < |s| ==> s[i] < s[j]
  }

  lemma {:induction false} MissingAscends(done: set<nat>, from: nat, to: nat)
    requires from <= to
    ensures Ascends(Missing(done, from, to))
    decreases if from < to then to - from else 0
  {
    if from < to {
      MissingAscends(done, from + 1, to);
      MissingElements(done, from + 1, to);
      var rest := Missing(done, from + 1, to);
      assert forall j :: 0 <= j < |rest| ==> rest[j] in rest;
    }
  }

  /** After any run the queue ascends, so a worker that takes a chunk takes the lowest one queued. */
  lemma {:induction false} TakesLowest(size: nat, n: nat, log: seq<nat>, file: seq<byte>, actions: seq<Action>, w: nat)
    ensures var s := Run(Begin(size, n, log, file), actions);
            && Ascends(s.todo)
            && (w < |s.workers| && s.workers[w] == Idle && s.todo != [] ==>
                  Step(s, Pop(w)).workers[w].Fetching? &&
                  Step(s, Pop(w)).workers[w].idx in s.todo &&
                  forall c :: c in s.todo ==> Step(s, Pop(w)).workers[w].idx <= c)
  {
    var s := Run(Begin(size, n, log, file), actions);
    if actions == [] {
      MissingAscends(Elements(log), 0, Chunks(size));
    } else {
      var t := Run(Begin(size, n, log, file), actions[..|actions| - 1]);
      TakesLowest(size, n, log, file, actions[..|actions| - 1], w);
      MissingAscends(Elements(t.log), 0, Chunks(|t.file|));
    }
    assert Ascends(s.todo);
    hide Run, Missing;
  }

  // ---------- no deadlock ----------

  /** Until every worker has returned, some step is possible; a mirror that answers whole is enough. */
  lemma NoDeadlock(s: State, source: seq<byte>) returns (a: Action)
    requires Inv(s, source) && !Finished(s)
    ensures !a.Resume? && Honest(s, a, source) && Step(s, a) != s
  {
    hide ChunkRight;
    var w :| 0 <= w < |s.workers| && s.workers[w] != Returned;
    match s.workers[w]
    case Idle =>
      a := Pop(w);
      assert Step(s, a).workers[w] != Idle;
    case Fetching(i) =>
      PlacesInRange(s);
      ChunkInFile(|source|, i);
      a := Answer(w, 206, source[Lo(i)..Hi(|source|, i)]);
      assert Step(s, a).workers[w] == Written(i);
    case Written(i) =>
      a := Record(w);
      assert Step(s, a).workers[w] == Idle;
  }

  // ---------- the program ----------

  class Pool {
    var todo: seq<nat>
    var workers: seq<Worker>
    var done: set<nat>
    var log: seq<nat>
    var file: seq<byte>

    function Model(): State
      reads this
    {
      State(todo, workers, done, log, file)
    }

    /** A new run over the log and the file of the last one. */
    constructor (n: nat, log: seq<nat>, file: seq<byte>)
      ensures Model() == Begin(|file|, n, log, file)
    {
      this.log, this.file := log, file;
      done := set x | x in log;
      workers := seq(n, _ => Idle);
      todo := [];
      new;
      todo := ListMissing();
    }

    /** The chunks the log does not name, in order. */
    method ListMissing() returns (missing: seq<nat>)
      ensures missing == Missing(done, 0, Chunks(|file|))
    {
      missing := [];
      var i := 0;
      while i < Chunks(|file|)
        invariant i <= Chunks(|file|)
        invariant missing + Missing(done, i, Chunks(|file|)) == Missing(done, 0, Chunks(|file|))
      {
        if i !in done {
          missing := missing + [i];
        }
        i := i + 1;
      }
      assert missing + [] == missing;
    }

    /** With the lock held: take the first chunk of the list, or return. */
    method TakeChunk(w: nat)
      requires w < |workers| && workers[w] == Idle
      modifies this
      ensures Model() == Step(old(Model()), Pop(w))
    {
      if todo == [] {
        workers := workers[w := Returned];
        return;
      }
      var idx := todo[0];
      todo := todo[1..];
      workers := workers[w := Fetching(idx)];
    }

    /** An answer to a range request; false means the worker tries the next mirror. */
    method Receive(w: nat, status: int, data: seq<byte>) returns (ok: bool)
      requires w < |workers| && workers[w].Fetching? && workers[w].idx < Chunks(|file|)
      modifies this
      ensures Model() == Step(old(Model()), Answer(w, status, data))
      ensures ok <==> workers[w].Written?
    {
      var idx := workers[w].idx;
      ChunkInFile(|file|, idx);
      var lo := idx * CHUNK;
      var hi := (if |file| < lo + CHUNK then |file| else lo + CHUNK) - 1;
      if status != 206 {
        return false;
      }
      if |data| != hi - lo + 1 {
        return false;
      }
      file := file[..lo] + data + file[lo + |data|..];
      workers := workers[w := Written(idx)];
      ok := true;
    }

    /**
      With the lock held: record a written chunk in memory, in the log, and on the
      terminal. Appending or printing may raise; the worker then fetches again.
    */
    method RecordChunk(w: nat, appends: bool, prints: bool) returns (ok: bool)
      requires w < |workers| && workers[w].Written?
      modifies this
      ensures ok <==> appends && prints
      ensures Model() == Step(old(Model()), if ok then Record(w) else RecordFails(w, appends))
    {
      var idx := workers[w].idx;
      done := done + {idx};
      if !appends {
        workers := workers[w := Fetching(idx)];
        return false;
      }
      log := log + [idx];
      if !prints {
        workers := workers[w := Fetching(idx)];
        return false;
      }
      workers := workers[w := Idle];
      ok := true;
    }
  }
}
