/** Why find_new_task ends, and what it finds: the search as a walk over positions. */
module Search {
  import opened Types
  import opened Sequences
  import opened Spec
  import opened Invariants

  /** The walk goes through `lead` and then round and round the runqueue. An awake caller leads with
      the rest of the runqueue behind it. One that has left the runqueue leads with the rest of
      the waitqueue, if it is there, and the end of the runqueue is below its priority. */
  ghost predicate Course(lead: seq<Task>, rq: seq<Task>, ts: map<Task, TaskV>, ours: nat, awake: bool) {
    && Among(lead, ts.Keys) && Among(rq, ts.Keys) && |rq| > 0 && Distinct(rq) && ByPriority(rq, ts)
    && (forall i :: 0 <= i < |rq| ==> Runnable(ts[rq[i]].status))
    && if awake then
         |lead| < |rq| && lead == rq[|rq| - |lead|..] && ts[rq[|rq| - |lead| - 1]].priority == ours
       else
         && Distinct(lead) && (forall i :: 0 <= i < |lead| ==> !Runnable(ts[lead[i]].status))
         && ts[rq[|rq| - 1]].priority < ours
  }

  /** Two rounds are always enough. */
  function Stop(lead: seq<Task>, rq: seq<Task>, p: nat): Task
    requires p < |lead| + 2 * |rq|
  {
    if p < |lead| then lead[p] else if p < |lead| + |rq| then rq[p - |lead|] else rq[p - |lead| - |rq|]
  }

  ghost predicate Equal(tv: TaskV, ours: nat) { Runnable(tv.status) && tv.priority == ours }

  ghost predicate Lower(tv: TaskV, ours: nat) { Runnable(tv.status) && tv.priority < ours }

  ghost predicate Higher(tv: TaskV, ours: nat) { Runnable(tv.status) && tv.priority > ours }

  /** Before position `p` there is no higher task; `found` is the first equal one there, at `e`, and
      `lower` the first lower one, at `l`; the walk has not come back to where it began. */
  ghost predicate Searched(lead: seq<Task>, rq: seq<Task>, ts: map<Task, TaskV>, ours: nat, p: nat,
                           found: Task?, lower: Task?, e: nat, l: nat)
    requires Among(lead, ts.Keys) && Among(rq, ts.Keys)
  {
    && e <= p && l <= p && p < |lead| + 2 * |rq|
    && (forall q :: 0 <= q < p ==> !Higher(ts[Stop(lead, rq, q)], ours))
    && (forall q :: 0 <= q < (if found == null then p else e) ==> !Equal(ts[Stop(lead, rq, q)], ours))
    && (found != null ==> e < p && found == Stop(lead, rq, e) && Equal(ts[found], ours))
    && (forall q :: 0 <= q < (if lower == null then p else l) ==> !Lower(ts[Stop(lead, rq, q)], ours))
    && (lower != null ==> l < p && lower == Stop(lead, rq, l) && Lower(ts[lower], ours))
    && (forall q :: 0 < q < p ==> Stop(lead, rq, q) != Stop(lead, rq, 0))
    && (lower != null ==> forall q :: l < q < p ==> Stop(lead, rq, q) != lower)
  }

  /** What the search should find. */
  function Best(lead: seq<Task>, rq: seq<Task>, ts: map<Task, TaskV>, ours: nat, awake: bool): Task
    requires Among(lead, ts.Keys) && Among(rq, ts.Keys) && |rq| > 0
  {
    var next := if lead == [] then rq[0] else lead[0];
    if awake && ts[rq[0]].priority <= ours && ts[next].priority == ours then next else rq[0]
  }

  /** One time round the runqueue leads back to the same task, and not before. */
  lemma RoundTrip(lead: seq<Task>, rq: seq<Task>, ts: map<Task, TaskV>, ours: nat, awake: bool)
    requires Course(lead, rq, ts, ours, awake)
    ensures awake ==> Stop(lead, rq, |rq|) == Stop(lead, rq, 0)
    ensures awake ==> forall p, q :: 0 <= p < q < |rq| ==> Stop(lead, rq, p) != Stop(lead, rq, q)
    ensures forall p {:trigger Stop(lead, rq, p)} :: |lead| <= p < |lead| + |rq| ==>
      Stop(lead, rq, p) == Stop(lead, rq, p + |rq|)
    ensures forall p :: 0 <= p < |lead| ==> !Higher(ts[Stop(lead, rq, p)], ours)
    ensures !awake ==> forall p, q :: 0 <= p < q < |lead| + |rq| ==> Stop(lead, rq, p) != Stop(lead, rq, q)
    ensures !awake && |lead| > 0 ==> forall q :: |lead| <= q < |lead| + 2 * |rq| ==>
      Stop(lead, rq, q) != Stop(lead, rq, 0)
    ensures !awake ==> forall p :: 0 <= p < |lead| ==> !Runnable(ts[Stop(lead, rq, p)].status)
  {
    var n := |lead|;
    if awake {
      var i := |rq| - |lead|;
      forall p, q | 0 <= p < q < |rq|
        ensures Stop(lead, rq, p) != Stop(lead, rq, q)
      {
        assert Stop(lead, rq, p) == rq[if p < |lead| then p + i else p - |lead|];
        assert Stop(lead, rq, q) == rq[if q < |lead| then q + i else q - |lead|];
      }
      assert i == |rq| || Stop(lead, rq, 0) == rq[i];
      assert forall p :: 0 <= p < n ==>
        Stop(lead, rq, p) == rq[i + p] && ts[rq[i + p]].priority <= ts[rq[i - 1]].priority;
    } else {
      forall p, q | 0 <= p < q < n + |rq|
        ensures Stop(lead, rq, p) != Stop(lead, rq, q)
      {
        assert p >= n ==> rq[p - n] != rq[q - n];
      }
    }
  }

  /** While the search goes on there is a next position. */
  lemma Room(lead: seq<Task>, rq: seq<Task>, ts: map<Task, TaskV>, ours: nat, awake: bool, p: nat,
             found: Task?, lower: Task?, e: nat, l: nat)
    requires Course(lead, rq, ts, ours, awake) && Searched(lead, rq, ts, ours, p, found, lower, e, l)
    requires Stop(lead, rq, p) != lower && (p > 0 ==> Stop(lead, rq, p) != Stop(lead, rq, 0))
    ensures p + 1 < |lead| + 2 * |rq|
  {
    RoundTrip(lead, rq, ts, ours, awake);
    if awake {
      assert p < |rq|;
    } else if p >= |lead| + |rq| {
      var t := |lead| + |rq| - 1;
      assert Lower(ts[Stop(lead, rq, t)], ours);
      assert lower != null && l <= t;
      assert l >= |lead|;
      assert Stop(lead, rq, l + |rq|) == lower;
    }
  }

  /** One task further. */
  lemma Advance(lead: seq<Task>, rq: seq<Task>, ts: map<Task, TaskV>, ours: nat, awake: bool, p: nat,
                found: Task?, lower: Task?, e: nat, l: nat)
    requires Course(lead, rq, ts, ours, awake) && Searched(lead, rq, ts, ours, p, found, lower, e, l)
    requires Stop(lead, rq, p) != lower && (p > 0 ==> Stop(lead, rq, p) != Stop(lead, rq, 0))
    requires !Higher(ts[Stop(lead, rq, p)], ours)
    ensures
      var task := Stop(lead, rq, p);
      var eq := found == null && Equal(ts[task], ours);
      var lo := lower == null && Lower(ts[task], ours);
      Searched(lead, rq, ts, ours, p + 1, if eq then task else found, if lo then task else lower,
               if eq then p else e, if lo then p else l)
  {
    hide Stop, Course;
    Room(lead, rq, ts, ours, awake, p, found, lower, e, l);
  }

  /** Once all of the runqueue has been passed and nothing higher was found, the first equal task, or
      else the first lower one, is the right one. */
  lemma PassedRound(lead: seq<Task>, rq: seq<Task>, ts: map<Task, TaskV>, ours: nat, awake: bool, p: nat,
                    found: Task?, lower: Task?, e: nat, l: nat)
    requires Course(lead, rq, ts, ours, awake) && Searched(lead, rq, ts, ours, p, found, lower, e, l)
    requires if awake then p == |rq| else p >= |lead| + |rq|
    ensures found != null ==> found == Best(lead, rq, ts, ours, awake)
    ensures found == null ==> !awake && lower == Best(lead, rq, ts, ours, awake)
  {
    var n := |lead|;
    assert Stop(lead, rq, n) == rq[0];
    assert ts[rq[0]].priority <= ours;
    if awake {
      var i := |rq| - n - 1;
      assert ts[rq[0]].priority >= ts[rq[i]].priority;
      assert Equal(ts[rq[0]], ours);
      if n > 0 {
        assert Stop(lead, rq, 0) == rq[i + 1];
        assert forall q :: 0 <= q < n ==>
          Stop(lead, rq, q) == rq[i + 1 + q] && ts[rq[i + 1 + q]].priority <= ts[rq[i + 1]].priority <= ours;
      }
    } else {
      assert forall q :: 0 <= q < n ==> !Runnable(ts[Stop(lead, rq, q)].status);
      if Equal(ts[rq[0]], ours) {
        assert found != null && e == n;
      } else {
        assert lower != null && l == n;
        if found != null { NoneEqual(lead, rq, ts, ours, e); }
      }
    }
  }

  lemma NoneEqual(lead: seq<Task>, rq: seq<Task>, ts: map<Task, TaskV>, ours: nat, e: nat)
    requires Course(lead, rq, ts, ours, false) && e < |lead| + 2 * |rq| && ts[rq[0]].priority < ours
    ensures !Equal(ts[Stop(lead, rq, e)], ours)
  {
    if e >= |lead| {
      var k := if e < |lead| + |rq| then e - |lead| else e - |lead| - |rq|;
      assert ts[rq[0]].priority >= ts[rq[k]].priority;
    }
  }

  /** The search is over when it meets a higher task: it is the head of the runqueue. */
  lemma EndsHigher(lead: seq<Task>, rq: seq<Task>, ts: map<Task, TaskV>, ours: nat, awake: bool, p: nat,
                   found: Task?, lower: Task?, e: nat, l: nat)
    requires Course(lead, rq, ts, ours, awake) && Searched(lead, rq, ts, ours, p, found, lower, e, l)
    requires Higher(ts[Stop(lead, rq, p)], ours)
    ensures Stop(lead, rq, p) == Best(lead, rq, ts, ours, awake)
  {
    var n := |lead|;
    RoundTrip(lead, rq, ts, ours, awake);
    var k := if p < n + |rq| then p - n else p - n - |rq|;
    assert Stop(lead, rq, p) == rq[k];
    assert ts[rq[0]].priority >= ts[rq[k]].priority;
    assert Stop(lead, rq, n) == rq[0];
  }

  /** ... or when it is back at the first lower task, */
  lemma EndsLower(lead: seq<Task>, rq: seq<Task>, ts: map<Task, TaskV>, ours: nat, awake: bool, p: nat,
                  found: Task?, lower: Task?, e: nat, l: nat)
    requires Course(lead, rq, ts, ours, awake) && Searched(lead, rq, ts, ours, p, found, lower, e, l)
    requires lower != null && Stop(lead, rq, p) == lower && (p > 0 ==> Stop(lead, rq, p) != Stop(lead, rq, 0))
    ensures found != null ==> found == Best(lead, rq, ts, ours, awake)
    ensures found == null ==> !awake && lower == Best(lead, rq, ts, ours, awake)
  {
    RoundTrip(lead, rq, ts, ours, awake);
    assert !awake && l >= |lead| && p >= |lead| + |rq|;
    PassedRound(lead, rq, ts, ours, awake, p, found, lower, e, l);
  }

  /** ... or when it is back where it began. */
  lemma EndsRound(lead: seq<Task>, rq: seq<Task>, ts: map<Task, TaskV>, ours: nat, awake: bool, p: nat,
                  found: Task?, lower: Task?, e: nat, l: nat)
    requires Course(lead, rq, ts, ours, awake) && Searched(lead, rq, ts, ours, p, found, lower, e, l)
    requires p > 0 && Stop(lead, rq, p) == Stop(lead, rq, 0)
    ensures found != null ==> found == Best(lead, rq, ts, ours, awake)
    ensures found == null ==> !awake && lower == Best(lead, rq, ts, ours, awake)
  {
    RoundTrip(lead, rq, ts, ours, awake);
    assert if awake then p == |rq| else p >= |lead| + |rq|;
    PassedRound(lead, rq, ts, ours, awake, p, found, lower, e, l);
  }
}
