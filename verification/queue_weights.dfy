/**
 Weighing the queues: each entry counts according to the structure it is in. Counting the entries
 of one id, and the termination measures, are instances.
 */
module QueueWeights {
  import opened Clock
  import opened Wrappers
  import opened Jobs
  import opened Backoff
  import opened JobQueue

  datatype Weights = Weights(main: Json -> int, processing: Json -> int, delayed: Json -> int, failed: Json -> int)

  ghost function Sum(f: Json -> int, list: seq<Json>): int {
    if list == [] then 0 else f(list[0]) + Sum(f, list[1..])
  }

  ghost function SumSet(f: Json -> int, s: set<Json>): int {
    if s == {} then 0
    else
      var x :| x in s;
      f(x) + SumSet(f, s - {x})
  }

  ghost function Weight(w: Weights, q: Queues): int {
    Sum(w.main, q.main) + Sum(w.processing, q.processing) + SumSet(w.delayed, q.delayed.Keys) + Sum(w.failed, q.failed)
  }

  // ---- sums ----

  lemma {:induction false} SumConcat(f: Json -> int, a: seq<Json>, b: seq<Json>)
    ensures Sum(f, a + b) == Sum(f, a) + Sum(f, b)
  {
    if a == [] {
      assert a + b == b;
    } else {
      assert (a + b)[1..] == a[1..] + b;
      SumConcat(f, a[1..], b);
    }
  }

  lemma SumPush(f: Json -> int, entry: Json, list: seq<Json>)
    ensures Sum(f, [entry] + list) == f(entry) + Sum(f, list)
  {
    assert ([entry] + list)[1..] == list;
  }

  lemma SumPop(f: Json -> int, list: seq<Json>)
    requires list != []
    ensures Sum(f, list) == Sum(f, list[..|list| - 1]) + f(list[|list| - 1])
  {
    var last := [list[|list| - 1]];
    assert list == list[..|list| - 1] + last;
    SumConcat(f, list[..|list| - 1], last);
    assert last[1..] == [];
  }

  lemma {:induction false} SumLRem(f: Json -> int, list: seq<Json>, value: Json)
    requires value in list
    ensures Sum(f, LRem(list, value)) == Sum(f, list) - f(value)
  {
    if list[0] != value {
      SumLRem(f, list[1..], value);
      SumPush(f, list[0], LRem(list[1..], value));
    }
  }

  lemma {:induction false} SumReverse(f: Json -> int, list: seq<Json>)
    ensures Sum(f, Reverse(list)) == Sum(f, list)
  {
    if list != [] {
      SumReverse(f, list[1..]);
      SumConcat(f, Reverse(list[1..]), [list[0]]);
      assert [list[0]][1..] == [];
    }
  }

  lemma {:induction false} SumSetRemove(f: Json -> int, s: set<Json>, x: Json)
    requires x in s
    ensures SumSet(f, s) == f(x) + SumSet(f, s - {x})
    decreases s
  {
    var y :| y in s && SumSet(f, s) == f(y) + SumSet(f, s - {y});
    if x != y {
      SumSetRemove(f, s - {y}, x);
      SumSetRemove(f, s - {x}, y);
      assert s - {x} - {y} == s - {y} - {x};
    }
  }

  lemma {:induction false} SumSetWithout(f: Json -> int, s: set<Json>, moved: seq<Json>)
    requires forall i :: 0 <= i < |moved| ==> moved[i] in s
    requires forall i, j :: 0 <= i < j < |moved| ==> moved[i] != moved[j]
    ensures SumSet(f, set x | x in s && x !in moved) == SumSet(f, s) - Sum(f, moved)
    decreases |moved|
  {
    var rest := set x | x in s && x !in moved;
    if moved == [] {
      assert rest == s;
    } else {
      SumSetRemove(f, s, moved[0]);
      var s', moved' := s - {moved[0]}, moved[1..];
      assert forall i :: 0 <= i < |moved'| ==> moved'[i] == moved[i + 1];
      SumSetWithout(f, s', moved');
      assert rest == set x | x in s' && x !in moved' by {
        assert moved == [moved[0]] + moved';
      }
    }
  }

  // ---- what each queue function does to a weight ----

  lemma EnqueuedWeight(w: Weights, q: Queues, job: Job)
    ensures Weight(w, Enqueued(q, job)) == Weight(w, q) + w.main(ToJson(job))
  {
    hide ToJson;
    SumPush(w.main, ToJson(job), q.main);
  }

  lemma LeasedWeight(w: Weights, q: Queues, now: Time)
    requires q.main != [] && FromJson(q.main[|q.main| - 1]).Success?
    ensures var (leased, result) := Leased(q, now);
            && result.Success? && result.value.Some?
            && Weight(w, leased)
               == Weight(w, q) - w.main(q.main[|q.main| - 1]) + w.processing(ToJson(result.value.value))
  {
    hide ToJson, FromJson;
    SumPop(w.main, q.main);
    SumPush(w.processing, ToJson(Leased(q, now).1.value.value), q.processing);
  }

  lemma AckedWeight(w: Weights, q: Queues, job: Job)
    requires ToJson(job) in q.processing
    ensures Weight(w, Acked(q, job)) == Weight(w, q) - w.processing(ToJson(job))
  {
    hide ToJson;
    SumLRem(w.processing, q.processing, ToJson(job));
  }

  lemma RetriedWeight(w: Weights, s: Settings, q: Queues, job: Job, error: string, now: Time)
    requires ToJson(job) in q.processing
    requires ToJson(RetryCopy(job, error)) !in q.delayed
    ensures Weight(w, Retried(s, q, job, error, now))
         == Weight(w, q) - w.processing(ToJson(job)) + w.delayed(ToJson(RetryCopy(job, error)))
  {
    hide ToJson;
    SumLRem(w.processing, q.processing, ToJson(job));
    var copy := ToJson(RetryCopy(job, error));
    var keys := Retried(s, q, job, error, now).delayed.Keys;
    assert keys == q.delayed.Keys + {copy};
    SumSetRemove(w.delayed, keys, copy);
    assert keys - {copy} == q.delayed.Keys;
  }

  lemma FailedWeight(w: Weights, q: Queues, job: Job, error: Option<string>, now: Time)
    requires ToJson(job) in q.processing
    ensures Weight(w, Failed(q, job, error, now))
         == Weight(w, q) - w.processing(ToJson(job)) + w.failed(ToJson(FailedCopy(job, error, now)))
  {
    hide ToJson;
    SumLRem(w.processing, q.processing, ToJson(job));
    SumPush(w.failed, ToJson(FailedCopy(job, error, now)), q.failed);
  }

  lemma PromotedWeight(w: Weights, q: Queues, now: Time, due: seq<Json>, limit: Option<int>)
    requires DueOrder(q.delayed, now, due)
    ensures var moved := due[..Taken(|due|, limit)];
            Weight(w, Promoted(q, due, limit)) == Weight(w, q) + Sum(w.main, moved) - Sum(w.delayed, moved)
  {
    var moved := due[..Taken(|due|, limit)];
    SumConcat(w.main, Reverse(moved), q.main);
    SumReverse(w.main, moved);
    forall i | 0 <= i < |moved|
      ensures moved[i] in q.delayed.Keys
      ensures forall j :: i < j < |moved| ==> moved[i] != moved[j]
    {
      assert moved[i] == due[i] && due[i] in due;
    }
    SumSetWithout(w.delayed, q.delayed.Keys, moved);
    assert Promoted(q, due, limit).delayed.Keys == set x | x in q.delayed.Keys && x !in moved;
  }

  /** The weight sees no difference between a lease and its stripped copy in main. */
  ghost predicate BlindToStamp(w: Weights) {
    forall raw :: FromJson(raw).Success? ==> w.main(Stripped(raw)) == w.processing(raw)
  }

  /** The weight sees no difference between a failed entry and its rewritten copy in main. */
  ghost predicate BlindToRewriting(w: Weights) {
    forall raw :: w.main(Rewritten(raw)) == w.failed(raw)
  }

  /** Reclaiming keeps every weight that does not see the lease stamp. */
  lemma ReclaimedWeight(w: Weights, s: Settings, q: Queues, now: Time)
    requires BlindToStamp(w)
    ensures Weight(w, Reclaimed(s, q, now)) == Weight(w, q)
  {
    hide FromJson, ToJson, Stripped, BlindToStamp, Returned, Fresh;
    var k := ReadablePrefix(q.processing);
    var scanned := q.processing[..k];
    ScannedWeight(w, s, scanned, now);
    SumConcat(w.main, Returned(s, scanned, now), q.main);
    SumConcat(w.processing, Fresh(s, scanned, now), q.processing[k..]);
    SumConcat(w.processing, scanned, q.processing[k..]);
    assert scanned + q.processing[k..] == q.processing;
  }

  lemma {:induction false} ScannedWeight(w: Weights, s: Settings, entries: seq<Json>, now: Time)
    requires BlindToStamp(w)
    ensures Sum(w.main, Returned(s, entries, now)) + Sum(w.processing, Fresh(s, entries, now))
         == Sum(w.processing, entries)
  {
    hide FromJson, ToJson, Stripped;
    if entries != [] {
      var last, front := entries[|entries| - 1], entries[..|entries| - 1];
      ScannedWeight(w, s, front, now);
      SumPop(w.processing, entries);
      SumPush(w.main, Stripped(last), Returned(s, front, now));
      SumConcat(w.processing, Fresh(s, front, now), [last]);
      SumPush(w.processing, last, []);
      assert [last] + [] == [last];
      assert [] + Returned(s, front, now) == Returned(s, front, now);
      assert Fresh(s, front, now) + [] == Fresh(s, front, now);
    }
  }

  lemma RequeuedWeight(w: Weights, q: Queues, limit: Option<int>)
    requires BlindToRewriting(w)
    requires ReadableSuffix(q.failed) == |q.failed|
    ensures Weight(w, Requeued(q, limit)) == Weight(w, q)
  {
    hide FromJson, ToJson, Rewritten, RewrittenAll, ReadableSuffix, OldestRequeued, BlindToRewriting, Sum, SumSet;
    var i := |q.failed| - Taken(|q.failed|, limit);
    var moved := q.failed[i..];
    RewrittenWeight(w, moved);
    SumConcat(w.main, RewrittenAll(moved), q.main);
    SumConcat(w.failed, q.failed[..i], moved);
    assert q.failed[..i] + moved == q.failed;
  }

  lemma {:induction false} RewrittenWeight(w: Weights, entries: seq<Json>)
    requires BlindToRewriting(w)
    ensures Sum(w.main, RewrittenAll(entries)) == Sum(w.failed, entries)
  {
    hide FromJson, ToJson, Rewritten;
    if entries != [] {
      RewrittenWeight(w, entries[1..]);
      assert RewrittenAll(entries)[1..] == RewrittenAll(entries[1..]);
    }
  }
}
