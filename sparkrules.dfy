/**
 * Pure rules shared by the three older single-file environments
 * (edm_environments/envs/wire_edm.py, wedm-environment.py, cleann.py):
 * the discrete action decoder, the sorted spark-position list and its
 * "adjacent close sparks" count, the wire-break probabilities built on it,
 * the bounded deque with a maximum length, and the two ways of unwinding
 * the wire under the recorded sparks.
 */
module SparkRules {
  // ------------------------------------------------------------------------
  // Action decoder
  // ------------------------------------------------------------------------

  /** A motor command: a direction (+1 or -1) and a number of motor steps. */
  datatype MotorStep = MotorStep(direction: int, steps: int)

  /**
   * The lambda stored as `_action_to_motor_step`: actions above max_steps
   * move forward, the others backward (action == max_steps is a zero-step
   * backward move).
   */
  function DecodeAction(action: int, maxSteps: int): (m: MotorStep)
    ensures m.direction == 1 || m.direction == -1
    ensures m.steps >= 0
    ensures m.direction * m.steps == action - maxSteps
    ensures 0 <= action <= 2 * maxSteps ==> m.steps <= maxSteps
  {
    if action > maxSteps then MotorStep(1, action - maxSteps) else MotorStep(-1, maxSteps - action)
  }

  /** The action a motor command comes from. */
  function EncodeAction(m: MotorStep, maxSteps: int): int {
    maxSteps + m.direction * m.steps
  }

  /**
   * Decoding is injective on the action space: every action is recovered
   * from its motor command, and a command in canonical form (a forward move
   * of at least one step, or a backward move of any length) is recovered
   * from its action.
   */
  lemma DecodeRoundTrip(action: int, m: MotorStep, maxSteps: int)
    ensures EncodeAction(DecodeAction(action, maxSteps), maxSteps) == action
    ensures (m.direction == 1 && m.steps >= 1) || (m.direction == -1 && m.steps >= 0) ==>
              DecodeAction(EncodeAction(m, maxSteps), maxSteps) == m
  {
  }

  /** `range(n)` runs max(n, 0) times. */
  function Times(n: int): nat {
    if n > 0 then n else 0
  }

  /** n + 1 moves of x cover n moves and one more. */
  lemma MulSucc(n: nat, x: real)
    ensures (n + 1) as real * x == n as real * x + x
  {
  }

  /** The random draws of one microsecond: the spark roll, the spark height, the break roll. */
  datatype Draw = Draw(sparkRoll: real, sparkY: int, breakRoll: real)

  // ------------------------------------------------------------------------
  // Sorting
  // ------------------------------------------------------------------------

  predicate Sorted(s: seq<real>) {
    forall i, j :: 0 <= i < j < |s| ==> s[i] <= s[j]
  }

  /** Insert x before the first element not below it. */
  function Insert(x: real, s: seq<real>): seq<real> {
    if s == [] then [x]
    else if x <= s[0] then [x] + s
    else [s[0]] + Insert(x, s[1..])
  }

  /** Inserting into a sorted sequence keeps it sorted and adds exactly x. */
  lemma {:induction false} InsertSpec(x: real, s: seq<real>)
    requires Sorted(s)
    ensures Sorted(Insert(x, s))
    ensures multiset(Insert(x, s)) == multiset(s) + multiset{x}
    ensures |Insert(x, s)| == |s| + 1
  {
    InsertPerm(x, s);
    InsertSorted(x, s);
  }

  lemma {:induction false} InsertPerm(x: real, s: seq<real>)
    ensures multiset(Insert(x, s)) == multiset(s) + multiset{x}
    ensures |Insert(x, s)| == |s| + 1
  {
    if s != [] && x > s[0] {
      InsertPerm(x, s[1..]);
      assert s == [s[0]] + s[1..];
    }
  }

  lemma {:induction false} InsertSorted(x: real, s: seq<real>)
    requires Sorted(s)
    ensures Sorted(Insert(x, s))
  {
    if s == [] {
    } else if x <= s[0] {
      var r := [x] + s;
      assert forall j :: 0 < j < |r| ==> r[j] == s[j - 1];
    } else {
      var rest := Insert(x, s[1..]);
      InsertSorted(x, s[1..]);
      InsertPerm(x, s[1..]);
      forall k | 0 <= k < |rest|
        ensures s[0] <= rest[k]
      {
        assert rest[k] in multiset(rest);
      }
      var r := [s[0]] + rest;
      assert Insert(x, s) == r;
      assert forall j :: 0 < j < |r| ==> r[j] == rest[j - 1];
    }
  }

  /** `sorted(...)` / `np.sort(...)`: insertion sort. */
  function Sort(s: seq<real>): seq<real> {
    if s == [] then [] else Insert(s[0], Sort(s[1..]))
  }

  /** Sorting yields an ascending permutation of the input. */
  lemma {:induction false} SortSpec(s: seq<real>)
    ensures Sorted(Sort(s))
    ensures multiset(Sort(s)) == multiset(s)
    ensures |Sort(s)| == |s|
  {
    if s != [] {
      SortSpec(s[1..]);
      InsertSpec(s[0], Sort(s[1..]));
      assert s == [s[0]] + s[1..];
    }
  }

  /** The smallest element of a non-empty sorted sequence comes first. */
  lemma SortedHeadIsMin(s: seq<real>, x: real)
    requires Sorted(s) && x in multiset(s)
    ensures s[0] <= x
  {
    var k :| 0 <= k < |s| && s[k] == x;
  }

  /** A sorted sequence is determined by its elements. */
  lemma {:induction false} SortedUnique(a: seq<real>, b: seq<real>)
    requires Sorted(a) && Sorted(b) && multiset(a) == multiset(b)
    ensures a == b
    decreases |a|
  {
    if a != [] {
      assert |b| == |multiset(b)| == |a|;
      assert a[0] in multiset(b);
      assert b[0] in multiset(a) by { assert b[0] in multiset(b); }
      SortedHeadIsMin(b, a[0]);
      SortedHeadIsMin(a, b[0]);
      assert a[0] == b[0];
      assert a == [a[0]] + a[1..];
      assert b == [b[0]] + b[1..];
      assert multiset(a[1..]) == multiset(b[1..]) by {
        calc {
          multiset(a[1..]);
          multiset([a[0]] + a[1..]) - multiset{a[0]};
          multiset(a) - multiset{a[0]};
          multiset(b) - multiset{b[0]};
          multiset([b[0]] + b[1..]) - multiset{b[0]};
          multiset(b[1..]);
        }
      }
      SortedUnique(a[1..], b[1..]);
    } else {
      assert |b| == |multiset(b)| == 0;
    }
  }

  /** Sorting forgets the input order: permutations sort to the same list. */
  lemma SortIgnoresOrder(a: seq<real>, b: seq<real>)
    requires multiset(a) == multiset(b)
    ensures Sort(a) == Sort(b)
  {
    SortSpec(a);
    SortSpec(b);
    SortedUnique(Sort(a), Sort(b));
  }

  // ------------------------------------------------------------------------
  // Close adjacent sparks
  // ------------------------------------------------------------------------

  function Abs(x: real): real { if x < 0.0 then -x else x }

  /**
   * `sum(abs(s[i] - s[i+1]) < threshold for i in range(len(s) - 1))`: the
   * number of adjacent pairs closer than the threshold.
   */
  function ClosePairs(s: seq<real>, threshold: real): (n: nat)
    ensures |s| >= 1 ==> n <= |s| - 1
    ensures |s| <= 1 ==> n == 0
  {
    if |s| < 2 then 0
    else (if Abs(s[0] - s[1]) < threshold then 1 else 0) + ClosePairs(s[1..], threshold)
  }

  /** `np.sum(np.diff(s) < threshold)`: the same count on signed differences. */
  function CloseDiffs(s: seq<real>, threshold: real): nat {
    if |s| < 2 then 0
    else (if s[1] - s[0] < threshold then 1 else 0) + CloseDiffs(s[1..], threshold)
  }

  /** On a sorted list the differences are non-negative, so the two counts agree. */
  lemma {:induction false} DiffsOfSorted(s: seq<real>, threshold: real)
    requires Sorted(s)
    ensures CloseDiffs(s, threshold) == ClosePairs(s, threshold)
  {
    if |s| >= 2 {
      assert Sorted(s[1..]);
      DiffsOfSorted(s[1..], threshold);
    }
  }

  /** The "-1 means no spark" entries filtered out, order kept. */
  function Relevant(s: seq<real>): (r: seq<real>)
    ensures |r| <= |s|
    ensures forall i :: 0 <= i < |r| ==> r[i] != -1.0
  {
    if s == [] then []
    else if s[|s| - 1] == -1.0 then Relevant(s[..|s| - 1])
    else Relevant(s[..|s| - 1]) + [s[|s| - 1]]
  }

  /** Filtering keeps every real position with its multiplicity and drops every -1. */
  lemma {:induction false} RelevantCounts(s: seq<real>, x: real)
    ensures multiset(Relevant(s))[x] == if x == -1.0 then 0 else multiset(s)[x]
  {
    if s != [] {
      RelevantCounts(s[..|s| - 1], x);
      assert s == s[..|s| - 1] + [s[|s| - 1]];
    }
  }

  /**
   * The break rule of the first gym environment: 1 iff at least two
   * adjacent sorted spark positions are closer than the heat-affected zone.
   */
  function BreakProbabilityHaz(positions: seq<real>, heatAffectedZone: real): (p: int)
    ensures p == 0 || p == 1
  {
    if CloseDiffs(Sort(positions), heatAffectedZone) >= 2 then 1 else 0
  }

  /**
   * The break rule of the later scripts: -1 entries dropped, the rest
   * sorted, 1 iff at least three adjacent pairs are closer than a crater
   * diameter.
   */
  function BreakProbabilityCrater(positions: seq<real>, craterDiameter: real): (p: int)
    ensures p == 0 || p == 1
  {
    if ClosePairs(Sort(Relevant(positions)), craterDiameter) >= 3 then 1 else 0
  }

  /** Filtering commutes with reordering. */
  lemma RelevantIgnoresOrder(a: seq<real>, b: seq<real>)
    requires multiset(a) == multiset(b)
    ensures multiset(Relevant(a)) == multiset(Relevant(b))
  {
    forall x
      ensures multiset(Relevant(a))[x] == multiset(Relevant(b))[x]
    {
      RelevantCounts(a, x);
      RelevantCounts(b, x);
    }
  }

  /**
   * The heat-affected-zone rule counts close pairs of the sorted positions
   * (signed differences agree with absolute ones there), depends only on
   * the multiset of recorded positions, and needs at least three sparks.
   */
  lemma HazBreakRule(positions: seq<real>, shuffled: seq<real>, hz: real)
    requires multiset(positions) == multiset(shuffled)
    ensures BreakProbabilityHaz(positions, hz) == 1 <==> ClosePairs(Sort(positions), hz) >= 2
    ensures BreakProbabilityHaz(positions, hz) == BreakProbabilityHaz(shuffled, hz)
    ensures |positions| < 3 ==> BreakProbabilityHaz(positions, hz) == 0
  {
    SortIgnoresOrder(positions, shuffled);
    SortSpec(positions);
    DiffsOfSorted(Sort(positions), hz);
  }

  /**
   * The crater rule depends only on the multiset of recorded positions and
   * needs at least four real (not -1) ones.
   */
  lemma CraterBreakRule(positions: seq<real>, shuffled: seq<real>, crater: real)
    requires multiset(positions) == multiset(shuffled)
    ensures BreakProbabilityCrater(positions, crater) == BreakProbabilityCrater(shuffled, crater)
    ensures |Relevant(positions)| < 4 ==> BreakProbabilityCrater(positions, crater) == 0
  {
    SortSpec(Relevant(positions));
    RelevantIgnoresOrder(positions, shuffled);
    SortIgnoresOrder(Relevant(positions), Relevant(shuffled));
  }

  // ------------------------------------------------------------------------
  // Bounded deque
  // ------------------------------------------------------------------------

  /** The last `maxlen` elements (all of them when there are fewer). */
  function Window<T>(s: seq<T>, maxlen: nat): (r: seq<T>)
    ensures |r| == if |s| > maxlen then maxlen else |s|
    ensures r == s[|s| - |r|..]
  {
    if |s| > maxlen then s[|s| - maxlen..] else s
  }

  /** `deque.append` with a maximum length: a full deque drops its oldest element. */
  function Push<T>(d: seq<T>, maxlen: nat, x: T): (r: seq<T>)
    ensures |d| <= maxlen ==> |r| == if |d| == maxlen then maxlen else |d| + 1
  {
    Window(d + [x], maxlen)
  }

  /** Appending one element at a time. */
  function PushAll<T>(d: seq<T>, maxlen: nat, xs: seq<T>): seq<T> {
    if xs == [] then d else Push(PushAll(d, maxlen, xs[..|xs| - 1]), maxlen, xs[|xs| - 1])
  }

  /**
   * A deque within its bound after any sequence of appends holds the last
   * `maxlen` elements of everything appended after its contents.
   */
  lemma {:induction false} PushAllIsWindow<T>(d: seq<T>, maxlen: nat, xs: seq<T>)
    requires |d| <= maxlen
    ensures PushAll(d, maxlen, xs) == Window(d + xs, maxlen)
  {
    if xs != [] {
      var init := xs[..|xs| - 1];
      PushAllIsWindow(d, maxlen, init);
      var w := Window(d + init, maxlen);
      assert d + xs == (d + init) + [xs[|xs| - 1]];
      var e := w + [xs[|xs| - 1]];
      assert e == (d + xs)[|d + xs| - |e|..];
    }
  }

  /** A full deque stays full. */
  lemma PushAllKeepsLength<T>(d: seq<T>, maxlen: nat, xs: seq<T>)
    requires |d| == maxlen
    ensures |PushAll(d, maxlen, xs)| == maxlen
  {
    PushAllIsWindow(d, maxlen, xs);
  }

  /** Appending two runs is appending their concatenation. */
  lemma {:induction false} PushAllSplit<T>(p: seq<T>, maxlen: nat, xs: seq<T>, ys: seq<T>)
    ensures PushAll(PushAll(p, maxlen, xs), maxlen, ys) == PushAll(p, maxlen, xs + ys)
  {
    if ys != [] {
      var init := ys[..|ys| - 1];
      PushAllSplit(p, maxlen, xs, init);
      assert (xs + ys)[..|xs + ys| - 1] == xs + init;
      assert (xs + ys)[|xs + ys| - 1] == ys[|ys| - 1];
    } else {
      assert xs + ys == xs;
    }
  }

  // ------------------------------------------------------------------------
  // Unwinding the wire
  // ------------------------------------------------------------------------

  /** A recorded spark: its position along the wire and its remaining lifetime. */
  datatype Spark = Spark(position: real, lifetime: int)

  function Positions(sparks: seq<Spark>): (r: seq<real>)
    ensures |r| == |sparks|
    ensures forall i :: 0 <= i < |sparks| ==> r[i] == sparks[i].position
  {
    if sparks == [] then [] else Positions(sparks[..|sparks| - 1]) + [sparks[|sparks| - 1].position]
  }

  /** One microsecond of unwinding for one spark: it moves down and ages. */
  function Shifted(s: Spark, speed: real): Spark {
    Spark(s.position - speed, s.lifetime - 1)
  }

  predicate Kept(s: Spark) {
    s.position >= 0.0 && s.lifetime >= 0
  }

  /**
   * `_unwind_wire` of the first gym environment: every spark shifted, and
   * those with a negative position or lifetime dropped.
   */
  function Unwound(sparks: seq<Spark>, speed: real): seq<Spark> {
    if sparks == [] then []
    else
      var last := Shifted(sparks[|sparks| - 1], speed);
      Unwound(sparks[..|sparks| - 1], speed) + (if Kept(last) then [last] else [])
  }

  /** Unwinding never grows the list. */
  lemma {:induction false} UnwoundShrinks(a: seq<Spark>, speed: real)
    ensures |Unwound(a, speed)| <= |a|
  {
    if a != [] {
      UnwoundShrinks(a[..|a| - 1], speed);
    }
  }

  /**
   * Unwinding keeps exactly the shifted sparks with non-negative position
   * and lifetime.
   */
  lemma {:induction false} UnwoundMembers(a: seq<Spark>, speed: real, x: Spark)
    ensures x in Unwound(a, speed) <==> exists y :: y in a && x == Shifted(y, speed) && Kept(x)
  {
    if a != [] {
      var init := a[..|a| - 1];
      UnwoundMembers(init, speed, x);
      assert a == init + [a[|a| - 1]];
      if x in Unwound(a, speed) && x !in Unwound(init, speed) {
        assert x == Shifted(a[|a| - 1], speed);
        assert a[|a| - 1] in a;
      }
      if exists y :: y in a && x == Shifted(y, speed) && Kept(x) {
        var y :| y in a && x == Shifted(y, speed) && Kept(x);
        if y !in init {
          assert y == a[|a| - 1];
        }
      }
    }
  }

  /** Unwinding keeps the order: unwinding a concatenation unwinds each part. */
  lemma {:induction false} UnwoundKeepsOrder(a: seq<Spark>, b: seq<Spark>, speed: real)
    ensures Unwound(a + b, speed) == Unwound(a, speed) + Unwound(b, speed)
  {
    if b != [] {
      var binit := b[..|b| - 1];
      UnwoundKeepsOrder(a, binit, speed);
      assert a + b == (a + binit) + [b[|b| - 1]];
      assert (a + b)[..|a + b| - 1] == a + binit;
    } else {
      assert a + b == a;
    }
  }

  /** The in-place unwinding of the later scripts, for one deque entry. */
  function UnwindEntry(x: real, speed: real, height: real): (r: real)
    ensures x == -1.0 && height >= -1.0 ==> r == -1.0
    ensures x != -1.0 && x + speed <= height ==> r == x + speed
    ensures (x != -1.0 && x + speed > height) || (x == -1.0 && height < -1.0) ==> r == -1.0
  {
    var y := if x != -1.0 then x + speed else x;
    if y > height then -1.0 else y
  }

  /** The whole deque unwound entry by entry. */
  function UnwindAll(s: seq<real>, speed: real, height: real): (r: seq<real>)
    ensures |r| == |s|
    ensures forall i :: 0 <= i < |s| ==> r[i] == UnwindEntry(s[i], speed, height)
  {
    seq(|s|, i requires 0 <= i < |s| => UnwindEntry(s[i], speed, height))
  }

  /**
   * Unwinding never creates a spark: an empty slot stays empty, and the
   * number of real entries never grows.
   */
  lemma {:induction false} UnwindAllNeverAdds(s: seq<real>, speed: real, height: real)
    requires height >= -1.0
    ensures |Relevant(UnwindAll(s, speed, height))| <= |Relevant(s)|
  {
    if s != [] {
      var init := s[..|s| - 1];
      UnwindAllNeverAdds(init, speed, height);
      assert UnwindAll(s, speed, height) == UnwindAll(init, speed, height) + [UnwindEntry(s[|s| - 1], speed, height)];
      assert UnwindAll(s, speed, height)[..|s| - 1] == UnwindAll(init, speed, height);
    }
  }

  // ------------------------------------------------------------------------
  // Sparks on screen
  // ------------------------------------------------------------------------

  /** A spark being drawn: gap midpoint, height and remaining lifespan. */
  datatype VisualSpark = VisualSpark(x: real, y: real, lifespan: int)

  /** A new spark is drawn for 2000 microseconds. */
  const SPARK_LIFESPAN := 2000

  /** One microsecond of fading: sparks at lifespan 1 or less go, the rest lose one. */
  function Faded(v: seq<VisualSpark>): seq<VisualSpark> {
    if v == [] then []
    else
      var last := v[|v| - 1];
      Faded(v[..|v| - 1]) + (if last.lifespan > 1 then [last.(lifespan := last.lifespan - 1)] else [])
  }

  /**
   * Fading keeps exactly the sparks whose lifespan exceeded one, each one
   * microsecond older, and never adds any.
   */
  lemma {:induction false} FadedSpec(v: seq<VisualSpark>, x: VisualSpark)
    ensures |Faded(v)| <= |v|
    ensures x in Faded(v) <==> exists y :: y in v && y.lifespan > 1 && x == y.(lifespan := y.lifespan - 1)
    ensures x in Faded(v) ==> x.lifespan >= 1
  {
    if v != [] {
      var init := v[..|v| - 1];
      var last := v[|v| - 1];
      FadedSpec(init, x);
      assert v == init + [last];
      if x in Faded(v) && x !in Faded(init) {
        assert last in v;
      }
      if exists y :: y in v && y.lifespan > 1 && x == y.(lifespan := y.lifespan - 1) {
        var y :| y in v && y.lifespan > 1 && x == y.(lifespan := y.lifespan - 1);
        if y !in init {
          assert y == last;
        }
      }
    }
  }
}
