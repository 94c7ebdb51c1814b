/** The transcription queue of app/contexts/recorder/transcription-queue.ts.
    Jobs go into an append-only list; a positionally aligned `results` list holds
    settled results (`Some`) and unresolved slots (`None`, standing for both
    `undefined` and array holes). Every enqueue and every settlement runs a
    processing pass that sorts `results` and drains every settled entry. */
module Transcription {
  import opened Wrappers
  import opened Lists

  /** A queued job; its promise is abstracted into the `Settle` event below.
      Timestamps are the milliseconds of the ISO capture time. */
  datatype Job = Job(id: string, timestamp: int, sender: string)

  /** `TranscriptionResult`: `transcript` is absent in failure results. */
  datatype TranscriptionResult =
    TranscriptionResult(id: string, timestamp: int, status: string, transcript: Option<string>, sender: string)

  /** How a job's promise settled. */
  datatype Settlement = Fulfilled(result: TranscriptionResult) | Rejected

  /** One call `onSpeechReceived(transcript, sender)`. */
  datatype Speech = Speech(transcript: string, sender: string)

  /** The result stored for a settled job: the backend's result, or for a rejected
      promise `{ ...job, status: "failed" }`, which carries no transcript. */
  function SettledResult(job: Job, settlement: Settlement): (r: TranscriptionResult)
    ensures settlement.Fulfilled? ==> r == settlement.result
    ensures settlement.Rejected? ==>
      r.id == job.id && r.timestamp == job.timestamp && r.sender == job.sender &&
      r.status == "failed" && r.transcript.None?
  {
    match settlement
    case Fulfilled(result) => result
    case Rejected => TranscriptionResult(job.id, job.timestamp, "failed", None, job.sender)
  }

  /** The drain loop calls back for a result iff it is completed with a non-empty transcript. */
  predicate Fires(r: TranscriptionResult)
  {
    r.status == "completed" && r.transcript.Some? && r.transcript.value != ""
  }

  function ToSpeech(r: TranscriptionResult): Speech
    requires r.transcript.Some?
  {
    Speech(r.transcript.value, r.sender)
  }

  /** The results, in drain order, that trigger a callback. */
  function Firing(rs: seq<TranscriptionResult>): (f: seq<TranscriptionResult>)
    ensures |f| <= |rs|
    ensures forall k :: 0 <= k < |f| ==> Fires(f[k])
  {
    if rs == [] then [] else (if Fires(rs[0]) then [rs[0]] else []) + Firing(rs[1..])
  }

  /** Filtering distributes over concatenation. */
  lemma {:induction false} FiringAppend(a: seq<TranscriptionResult>, b: seq<TranscriptionResult>)
    ensures Firing(a + b) == Firing(a) + Firing(b)
  {
    if a == [] {
      assert a + b == b;
    } else {
      assert (a + b)[0] == a[0];
      assert (a + b)[1..] == a[1..] + b;
      FiringAppend(a[1..], b);
    }
  }

  /** `Firing` is the filter of the drained list by `Fires`. */
  lemma {:induction false} FiringIsFilter(rs: seq<TranscriptionResult>)
    ensures Firing(rs) == Filter(rs, Fires)
  {
    if rs != [] {
      FiringIsFilter(rs[1..]);
    }
  }

  /** The firing results are drawn from the drained list in its order, and every firing
      result is kept as often as it occurs while a silent one never is. */
  lemma FiringSelects(rs: seq<TranscriptionResult>)
    ensures IsSubsequence(Firing(rs), rs)
    ensures forall r :: multiset(Firing(rs))[r] == if Fires(r) then multiset(rs)[r] else 0
  {
    FiringIsFilter(rs);
    FilterIsSubsequence(rs, Fires);
    forall r ensures multiset(Filter(rs, Fires))[r] == if Fires(r) then multiset(rs)[r] else 0 {
      FilterCount(rs, Fires, r);
    }
  }

  /** The callbacks issued when `rs` is drained in order. */
  function Callbacks(rs: seq<TranscriptionResult>): (c: seq<Speech>)
    ensures |c| == |Firing(rs)| <= |rs|
    ensures forall k :: 0 <= k < |c| ==> c[k] == ToSpeech(Firing(rs)[k])
  {
    var f := Firing(rs);
    seq(|f|, k requires 0 <= k < |f| => ToSpeech(f[k]))
  }

  /** Draining `a` then `b` issues the callbacks of `a` then those of `b`. */
  lemma CallbacksAppend(a: seq<TranscriptionResult>, b: seq<TranscriptionResult>)
    ensures Callbacks(a + b) == Callbacks(a) + Callbacks(b)
  {
    FiringAppend(a, b);
  }

  /** A single drained result issues one callback, with its transcript and sender,
      exactly when it is completed with a non-empty transcript. */
  lemma CallbacksOfOne(r: TranscriptionResult)
    ensures Fires(r) ==> Callbacks([r]) == [Speech(r.transcript.value, r.sender)]
    ensures !Fires(r) ==> Callbacks([r]) == []
  {
    assert [r][1..] == [];
  }

  /** A rejected job never reaches `onSpeechReceived`. */
  lemma RejectedIsSilent(job: Job)
    ensures Callbacks([SettledResult(job, Rejected)]) == []
  {
    CallbacksOfOne(SettledResult(job, Rejected));
  }

  // ---------------------------------------------------------------------------
  // Sorting: `results.sort(byTimestamp)` under ECMA-262 `Array.prototype.sort`,
  // which is stable and places `undefined` entries and holes after every other
  // entry without consulting the comparator.

  predicate SortedByTimestamp(rs: seq<TranscriptionResult>)
  {
    forall i, j :: 0 <= i < j < |rs| ==> rs[i].timestamp <= rs[j].timestamp
  }

  /** The results carrying timestamp `t`, in their order in `rs`. */
  function WithTimestamp(rs: seq<TranscriptionResult>, t: int): seq<TranscriptionResult>
  {
    if rs == [] then []
    else (if rs[0].timestamp == t then [rs[0]] else []) + WithTimestamp(rs[1..], t)
  }

  /** Inserts `x` before the first entry whose timestamp is not smaller. */
  function Insert(x: TranscriptionResult, rs: seq<TranscriptionResult>): (r: seq<TranscriptionResult>)
    ensures |r| == |rs| + 1
  {
    if rs == [] || x.timestamp <= rs[0].timestamp then [x] + rs
    else [rs[0]] + Insert(x, rs[1..])
  }

  lemma {:induction false} InsertPermutes(x: TranscriptionResult, rs: seq<TranscriptionResult>)
    ensures multiset(Insert(x, rs)) == multiset(rs) + multiset{x}
  {
    if rs != [] && x.timestamp > rs[0].timestamp {
      InsertPermutes(x, rs[1..]);
      assert rs == [rs[0]] + rs[1..];
    }
  }

  /** Every entry of the result lies at or above any common lower bound of `x` and `rs`. */
  lemma {:induction false} InsertBounded(x: TranscriptionResult, rs: seq<TranscriptionResult>, low: int)
    requires x.timestamp >= low
    requires forall k :: 0 <= k < |rs| ==> rs[k].timestamp >= low
    ensures forall k :: 0 <= k < |Insert(x, rs)| ==> Insert(x, rs)[k].timestamp >= low
  {
    if rs != [] && x.timestamp > rs[0].timestamp {
      InsertBounded(x, rs[1..], low);
    }
  }

  lemma {:induction false} InsertSorted(x: TranscriptionResult, rs: seq<TranscriptionResult>)
    requires SortedByTimestamp(rs)
    ensures SortedByTimestamp(Insert(x, rs))
  {
    if rs != [] && x.timestamp > rs[0].timestamp {
      InsertSorted(x, rs[1..]);
      InsertBounded(x, rs[1..], rs[0].timestamp);
    }
  }

  /** One step of `WithTimestamp` on a list built by prepending. */
  lemma WithTimestampCons(y: TranscriptionResult, rest: seq<TranscriptionResult>, t: int)
    ensures WithTimestamp([y] + rest, t) == (if y.timestamp == t then [y] else []) + WithTimestamp(rest, t)
  {
    assert ([y] + rest)[1..] == rest;
  }

  /** Inserting `x` adds it in front of the entries with its own timestamp. */
  lemma {:induction false} InsertWithTimestamp(x: TranscriptionResult, rs: seq<TranscriptionResult>, t: int)
    ensures WithTimestamp(Insert(x, rs), t) == (if x.timestamp == t then [x] else []) + WithTimestamp(rs, t)
  {
    if rs == [] || x.timestamp <= rs[0].timestamp {
      WithTimestampCons(x, rs, t);
    } else {
      var rest := Insert(x, rs[1..]);
      InsertWithTimestamp(x, rs[1..], t);
      WithTimestampCons(rs[0], rest, t);
      WithTimestampCons(rs[0], rs[1..], t);
      assert [rs[0]] + rs[1..] == rs;
      // x sorts strictly after rs[0], so at most one of them carries `t`.
      if rs[0].timestamp == t {
        assert x.timestamp != t;
      } else {
        assert WithTimestamp(rs, t) == WithTimestamp(rs[1..], t);
      }
    }
  }

  /** The comparator-driven part of the sort, as an insertion sort by timestamp. */
  function SortByTimestamp(rs: seq<TranscriptionResult>): (r: seq<TranscriptionResult>)
    ensures |r| == |rs|
  {
    if rs == [] then [] else Insert(rs[0], SortByTimestamp(rs[1..]))
  }

  /** The sort orders by timestamp and is a permutation of its input. */
  lemma {:induction false} SortByTimestampSorts(rs: seq<TranscriptionResult>)
    ensures SortedByTimestamp(SortByTimestamp(rs))
    ensures multiset(SortByTimestamp(rs)) == multiset(rs)
  {
    if rs != [] {
      SortByTimestampSorts(rs[1..]);
      InsertSorted(rs[0], SortByTimestamp(rs[1..]));
      InsertPermutes(rs[0], SortByTimestamp(rs[1..]));
      assert rs == [rs[0]] + rs[1..];
    }
  }

  /** The sort is stable: the entries sharing any one timestamp keep their relative order. */
  lemma {:induction false} SortByTimestampStable(rs: seq<TranscriptionResult>, t: int)
    ensures WithTimestamp(SortByTimestamp(rs), t) == WithTimestamp(rs, t)
  {
    if rs != [] {
      SortByTimestampStable(rs[1..], t);
      InsertWithTimestamp(rs[0], SortByTimestamp(rs[1..]), t);
    }
  }

  /** Results drained in sorted order fire callbacks in non-decreasing timestamp order. */
  lemma {:induction false} FiringSorted(rs: seq<TranscriptionResult>)
    requires SortedByTimestamp(rs)
    ensures SortedByTimestamp(Firing(rs))
  {
    if rs != [] {
      FiringSorted(rs[1..]);
      FiringBounded(rs[1..], rs[0].timestamp);
    }
  }

  /** Filtering keeps any common lower bound on the timestamps. */
  lemma {:induction false} FiringBounded(rs: seq<TranscriptionResult>, low: int)
    requires forall k :: 0 <= k < |rs| ==> rs[k].timestamp >= low
    ensures forall k :: 0 <= k < |Firing(rs)| ==> Firing(rs)[k].timestamp >= low
  {
    if rs != [] {
      FiringBounded(rs[1..], low);
    }
  }

  /** The settled entries of the slots, in order. */
  function Resolved(slots: seq<Option<TranscriptionResult>>): seq<TranscriptionResult>
  {
    if slots == [] then []
    else (if slots[0].Some? then [slots[0].value] else []) + Resolved(slots[1..])
  }

  /** The number of unresolved slots. */
  function CountNone(slots: seq<Option<TranscriptionResult>>): nat
  {
    if slots == [] then 0 else (if slots[0].None? then 1 else 0) + CountNone(slots[1..])
  }

  function Nones(n: nat): (r: seq<Option<TranscriptionResult>>)
    ensures |r| == n && forall k :: 0 <= k < n ==> r[k].None?
  {
    seq(n, _ => None)
  }

  lemma {:induction false} NonesAreUnresolved(n: nat)
    ensures Resolved(Nones(n)) == [] && CountNone(Nones(n)) == n
  {
    if n > 0 {
      assert Nones(n)[1..] == Nones(n - 1);
      NonesAreUnresolved(n - 1);
    }
  }

  lemma SlotsAppend(a: seq<Option<TranscriptionResult>>, b: seq<Option<TranscriptionResult>>)
    ensures Resolved(a + b) == Resolved(a) + Resolved(b)
    ensures CountNone(a + b) == CountNone(a) + CountNone(b)
  {
    ResolvedAppend(a, b);
    CountNoneAppend(a, b);
  }

  lemma {:induction false} ResolvedAppend(a: seq<Option<TranscriptionResult>>, b: seq<Option<TranscriptionResult>>)
    ensures Resolved(a + b) == Resolved(a) + Resolved(b)
  {
    if a == [] {
      assert a + b == b;
    } else {
      assert (a + b)[1..] == a[1..] + b;
      assert (a + b)[0] == a[0];
      ResolvedAppend(a[1..], b);
    }
  }

  lemma {:induction false} CountNoneAppend(a: seq<Option<TranscriptionResult>>, b: seq<Option<TranscriptionResult>>)
    ensures CountNone(a + b) == CountNone(a) + CountNone(b)
  {
    if a == [] {
      assert a + b == b;
    } else {
      assert (a + b)[1..] == a[1..] + b;
      assert (a + b)[0] == a[0];
      CountNoneAppend(a[1..], b);
    }
  }

  /** No slot holds a settled result. */
  predicate AllUnresolved(slots: seq<Option<TranscriptionResult>>)
  {
    forall k :: 0 <= k < |slots| ==> slots[k].None?
  }

  lemma AllUnresolvedIsNones(slots: seq<Option<TranscriptionResult>>)
    requires AllUnresolved(slots)
    ensures slots == Nones(|slots|) && Resolved(slots) == [] && CountNone(slots) == |slots|
  {
    assert slots == Nones(|slots|);
    NonesAreUnresolved(|slots|);
  }

  /** `results.sort(byTimestamp)`: the settled entries stably sorted by timestamp,
      then every unresolved slot. */
  function SortSlots(slots: seq<Option<TranscriptionResult>>): (r: seq<Option<TranscriptionResult>>)
    ensures |r| == |slots|
    ensures Resolved(r) == SortByTimestamp(Resolved(slots))
    ensures CountNone(r) == CountNone(slots)
    ensures forall i, j :: 0 <= i < j < |r| && r[i].None? ==> r[j].None?
  {
    var sorted := SortByTimestamp(Resolved(slots));
    var r := seq(|sorted|, k requires 0 <= k < |sorted| => Some(sorted[k])) + Nones(CountNone(slots));
    SomesResolved(sorted);
    SlotsAppend(seq(|sorted|, k requires 0 <= k < |sorted| => Some(sorted[k])), Nones(CountNone(slots)));
    NonesAreUnresolved(CountNone(slots));
    SlotsLength(slots);
    r
  }

  lemma {:induction false} SomesResolved(rs: seq<TranscriptionResult>)
    ensures Resolved(seq(|rs|, k requires 0 <= k < |rs| => Some(rs[k]))) == rs
    ensures CountNone(seq(|rs|, k requires 0 <= k < |rs| => Some(rs[k]))) == 0
  {
    var s := seq(|rs|, k requires 0 <= k < |rs| => Some(rs[k]));
    if rs != [] {
      assert s[1..] == seq(|rs[1..]|, k requires 0 <= k < |rs[1..]| => Some(rs[1..][k]));
      SomesResolved(rs[1..]);
    }
  }

  lemma {:induction false} SlotsLength(slots: seq<Option<TranscriptionResult>>)
    ensures |Resolved(slots)| + CountNone(slots) == |slots|
  {
    if slots != [] {
      SlotsLength(slots[1..]);
    }
  }

  /** Unfolds the slot functions at one position. */
  lemma SlotsStep(slots: seq<Option<TranscriptionResult>>, index: nat)
    requires index < |slots|
    ensures Resolved(slots[index..]) == (if slots[index].Some? then [slots[index].value] else []) + Resolved(slots[index + 1..])
    ensures CountNone(slots[index..]) == (if slots[index].None? then 1 else 0) + CountNone(slots[index + 1..])
  {
    assert slots[index..][1..] == slots[index + 1..];
  }

  /** The drain loop's bookkeeping when it splices out the settled entry at
      `index`: that result joins the drained prefix, and the slots before `index`
      stay unresolved. */
  lemma SpliceKeepsAccount(orig: seq<Option<TranscriptionResult>>, drained: seq<TranscriptionResult>,
                           slots: seq<Option<TranscriptionResult>>, index: nat)
    requires index < |slots| && slots[index].Some?
    requires forall k :: 0 <= k < index ==> slots[k].None?
    requires Resolved(orig) == drained + Resolved(slots[index..])
    requires CountNone(orig) == index + CountNone(slots[index..])
    ensures var next := slots[..index] + slots[index + 1..];
      && |next| == |slots| - 1
      && (forall k :: 0 <= k < index ==> next[k].None?)
      && Resolved(orig) == (drained + [slots[index].value]) + Resolved(next[index..])
      && CountNone(orig) == index + CountNone(next[index..])
  {
    var next := slots[..index] + slots[index + 1..];
    assert next[index..] == slots[index + 1..];
    SlotsStep(slots, index);
    assert drained + ([slots[index].value] + Resolved(slots[index + 1..]))
        == (drained + [slots[index].value]) + Resolved(slots[index + 1..]);
  }

  /** The drain loop's bookkeeping when it steps over the unresolved slot at `index`. */
  lemma SkipKeepsAccount(orig: seq<Option<TranscriptionResult>>, drained: seq<TranscriptionResult>,
                         slots: seq<Option<TranscriptionResult>>, index: nat)
    requires index < |slots| && slots[index].None?
    requires Resolved(orig) == drained + Resolved(slots[index..])
    requires CountNone(orig) == index + CountNone(slots[index..])
    ensures Resolved(orig) == drained + Resolved(slots[index + 1..])
    ensures CountNone(orig) == index + 1 + CountNone(slots[index + 1..])
  {
    SlotsStep(slots, index);
    assert [] + Resolved(slots[index + 1..]) == Resolved(slots[index + 1..]);
  }

  /** Draining one more result appends its callback, if it fires. */
  lemma CallbacksStep(drained: seq<TranscriptionResult>, r: TranscriptionResult)
    ensures Callbacks(drained + [r]) ==
      Callbacks(drained) + (if Fires(r) then [Speech(r.transcript.value, r.sender)] else [])
  {
    CallbacksAppend(drained, [r]);
    CallbacksOfOne(r);
  }

  /** `this.results[index] = value` on a JavaScript array: overwrites inside the
      array, and past its end grows it, leaving holes (unresolved slots) between. */
  function SetSlot(slots: seq<Option<TranscriptionResult>>, index: nat, value: Option<TranscriptionResult>)
    : (r: seq<Option<TranscriptionResult>>)
    ensures |r| == if index < |slots| then |slots| else index + 1
    ensures r[index] == value
    ensures forall k :: 0 <= k < |r| && k != index ==> r[k] == if k < |slots| then slots[k] else None
  {
    if index < |slots| then slots[index := value] else slots + Nones(index - |slots|) + [value]
  }

  class TranscriptionQueue {
    var jobs: seq<Job>
    var results: seq<Option<TranscriptionResult>>
    /** Every `onSpeechReceived(transcript, sender)` call so far, in order. */
    var delivered: seq<Speech>
    /** The job indices whose promise has settled. */
    ghost var settled: set<nat>

    /** Between events every settled result has been drained, `results` is never
        longer than `jobs`, and no job has produced more than one callback. */
    ghost predicate Valid()
      reads this
    {
      && |results| <= |jobs|
      && AllUnresolved(results)
      && (forall i :: i in settled ==> i < |jobs|)
      && |delivered| <= |settled|
    }

    constructor()
      ensures Valid()
      ensures jobs == [] && results == [] && delivered == [] && settled == {}
    {
      jobs, results, delivered, settled := [], [], [], {};
    }

    /** `addJob(job)`: appends the job, marks its slot unresolved and runs a pass. */
    method AddJob(job: Job)
      requires Valid()
      modifies this
      ensures Valid()
      ensures jobs == old(jobs) + [job]
      ensures results == Nones(|jobs|)
      ensures delivered == old(delivered) && settled == old(settled)
    {
      var index := |jobs|;
      jobs := jobs + [job];
      results := SetSlot(results, index, None);
      assert AllUnresolved(results);
      ProcessResults();
      AllUnresolvedIsNones(old(results));
      SlotsAppend(old(results), Nones(index - |old(results)|) + [None]);
      SlotsAppend(Nones(index - |old(results)|), [None]);
      NonesAreUnresolved(index - |old(results)|);
      NonesAreUnresolved(1);
      assert [None] == Nones(1);
      assert old(results) + Nones(index - |old(results)|) + [None]
          == old(results) + (Nones(index - |old(results)|) + [None]);
      SortedNothing();
    }

    /** The `.then` / `.catch` handler of the job at `index`: stores its result at
        that index of `results` and runs a pass. Each promise settles once. */
    method Settle(index: nat, settlement: Settlement)
      requires Valid()
      requires index < |jobs| && index !in settled
      modifies this
      ensures Valid()
      ensures jobs == old(jobs) && settled == old(settled) + {index}
      ensures delivered == old(delivered) + Callbacks([SettledResult(jobs[index], settlement)])
      ensures |results| == if index < old(|results|) then old(|results|) - 1 else index
    {
      var r := SettledResult(jobs[index], settlement);
      results := SetSlot(results, index, Some(r));
      ghost var written := results;
      ProcessResults();
      OneSettled(written, index, r);
      assert SortByTimestamp([r]) == [r];
      CallbacksOfOne(r);
      assert |settled + {index}| == |settled| + 1;
      settled := settled + {index};
    }

    /** `processResults()`: unless no slot is settled, sorts `results` by timestamp
        and then drains it. */
    method ProcessResults()
      modifies this`results, this`delivered
      ensures results == Nones(CountNone(old(results)))
      ensures delivered == old(delivered) + Callbacks(SortByTimestamp(Resolved(old(results))))
    {
      if results == [] || AllUnresolved(results) {
        AllUnresolvedIsNones(results);
        SortedNothing();
        return;
      }
      results := SortSlots(results);
      DrainSettled();
    }

    /** The `while` loop of `processResults`: walks `results` with a moving index,
        calling back for and splicing out every settled entry and stepping over
        every unresolved one. It does not stop at an unresolved slot, so every
        settled entry is drained whatever its position. */
    method DrainSettled()
      modifies this`results, this`delivered
      ensures results == Nones(CountNone(old(results)))
      ensures delivered == old(delivered) + Callbacks(Resolved(old(results)))
    {
      ghost var drained: seq<TranscriptionResult> := [];
      var index := 0;
      assert results[index..] == results;
      while index < |results|
        invariant 0 <= index <= |results|
        invariant forall k :: 0 <= k < index ==> results[k].None?
        invariant Resolved(old(results)) == drained + Resolved(results[index..])
        invariant CountNone(old(results)) == index + CountNone(results[index..])
        invariant delivered == old(delivered) + Callbacks(drained)
        decreases |results| - index
      {
        var result := results[index];
        if result.Some? {
          if Fires(result.value) {
            delivered := delivered + [Speech(result.value.transcript.value, result.value.sender)];
          }
          CallbacksStep(drained, result.value);
          SpliceKeepsAccount(old(results), drained, results, index);
          results := results[..index] + results[index + 1..];
          drained := drained + [result.value];
        } else {
          SkipKeepsAccount(old(results), drained, results, index);
          index := index + 1;
        }
      }
      assert results[index..] == [];
      assert Resolved(results[index..]) == [] && CountNone(results[index..]) == 0;
      assert drained == Resolved(old(results));
      assert results == Nones(index);
    }

    /** The no-op case: sorting nothing gives nothing. */
    static lemma SortedNothing()
      ensures SortByTimestamp([]) == [] && Callbacks([]) == []
    {
    }

    /** After a single write into an all-unresolved list, the pass sees exactly one settled entry. */
    static lemma OneSettled(slots: seq<Option<TranscriptionResult>>, index: nat, r: TranscriptionResult)
      requires index < |slots| && slots[index] == Some(r)
      requires forall k :: 0 <= k < |slots| && k != index ==> slots[k].None?
      ensures Resolved(slots) == [r]
      ensures CountNone(slots) == |slots| - 1
    {
      assert slots == slots[..index] + [slots[index]] + slots[index + 1..];
      AllUnresolvedIsNones(slots[..index]);
      AllUnresolvedIsNones(slots[index + 1..]);
      SlotsAppend(slots[..index] + [slots[index]], slots[index + 1..]);
      SlotsAppend(slots[..index], [slots[index]]);
      assert [slots[index]][1..] == [];
    }
  }

  /** A later job that settles first is delivered first: a pending earlier job does
      not hold it back, so callbacks follow settlement order, not timestamp order. */
  method OutOfOrderDelivery() returns (log: seq<Speech>)
    ensures log == [Speech("world", "tab"), Speech("hello", "mic")]
  {
    var q := new TranscriptionQueue();
    q.AddJob(Job("a", 1, "mic"));
    q.AddJob(Job("b", 2, "tab"));
    var resultB := TranscriptionResult("b", 2, "completed", Some("world"), "tab");
    var resultA := TranscriptionResult("a", 1, "completed", Some("hello"), "mic");
    q.Settle(1, Fulfilled(resultB));
    CallbacksOfOne(resultB);
    q.Settle(0, Fulfilled(resultA));
    CallbacksOfOne(resultA);
    log := q.delivered;
  }

  /** A failed earlier job delivers nothing and blocks nobody: jobs A (failing), B and
      C settling in the order B, C, A call back with B's then C's transcript. */
  method FailureDoesNotBlock() returns (log: seq<Speech>)
    ensures log == [Speech("hello", "senderB"), Speech("world", "senderC")]
  {
    var q := new TranscriptionQueue();
    q.AddJob(Job("a", 1, "senderA"));
    q.AddJob(Job("b", 2, "senderB"));
    q.AddJob(Job("c", 3, "senderC"));
    var resultB := TranscriptionResult("b", 2, "completed", Some("hello"), "senderB");
    var resultC := TranscriptionResult("c", 3, "completed", Some("world"), "senderC");
    q.Settle(1, Fulfilled(resultB));
    CallbacksOfOne(resultB);
    q.Settle(2, Fulfilled(resultC));
    CallbacksOfOne(resultC);
    q.Settle(0, Rejected);
    RejectedIsSilent(Job("a", 1, "senderA"));
    log := q.delivered;
  }
}
