/** How the weight of one backend follows its probe results (core/runtime.go):
    the weight is stashed on the first Down, given back in proportion to health
    on every Up, and the stash entry goes when the backend has recovered. */
module Stash {
  import opened Basics
  import opened Metrics

  /** uint32(float64(weight) * health), truncating; a negative health, which no
      Up or Down message carries, has no defined result in Go. */
  function Scale(weight: uint32, health: real): uint32 {
    if health < 0.0 then 0 else (weight as real * health).Floor % 0x1_0000_0000
  }

  /** The backend's current weight and its stash entry. */
  datatype Course = Course(weight: uint32, stash: Option<uint32>)

  /** One message, when `ok` tells whether the kernel accepts the new weight. */
  function Deliver(c: Course, status: Status, health: real, ok: bool): Course {
    match status
    case Up =>
      if c.stash.None? || !ok then c
      else
        var weight := Scale(c.stash.value, health);
        Course(weight, if weight == c.stash.value then None else c.stash)
    case Down =>
      if c.stash.Some? || !ok then c else Course(0, Some(c.weight))
    case Removed =>
      c.(stash := None)
  }

  /** A whole history of messages from a fresh backend of weight w0. */
  function Follow(w0: uint32, history: seq<Status>, oks: seq<bool>): Course
    requires |oks| == |history|
  {
    if history == [] then Course(w0, None)
    else
      var n := |history| - 1;
      Deliver(Follow(w0, history[..n], oks[..n]), history[n], Health(Window(history)), oks[n])
  }

  /** After a Removed message nothing is stashed, and no weight was changed for
      it. */
  lemma RemovedForgets(w0: uint32, history: seq<Status>, oks: seq<bool>)
    requires |oks| == |history| && history != [] && history[|history| - 1] == Removed
    ensures var n := |history| - 1;
            Follow(w0, history, oks) == Course(Follow(w0, history[..n], oks[..n]).weight, None)
  {}

  function AllOk(n: nat): seq<bool> {
    seq(n, _ => true)
  }

  /** The same with a kernel that never fails. */
  function Course0(w0: uint32, history: seq<Status>): Course {
    Follow(w0, history, AllOk(|history|))
  }

  lemma Course0Step(w0: uint32, history: seq<Status>)
    requires history != []
    ensures var n := |history| - 1;
            Course0(w0, history) == Deliver(Course0(w0, history[..n]), history[n], Health(Window(history)), true)
  {
    assert AllOk(|history|)[..|history| - 1] == AllOk(|history| - 1);
  }

  /** The stateless meaning: after an Up the weight is the share of Ups in the
      window; the first Down of a window sets it to 0; a further Down leaves it
      alone. */
  function Weight(w0: uint32, history: seq<Status>): int {
    if history == [] then w0
    else
      var n := |history| - 1;
      var window := Window(history);
      if history[n] == Up then w0 * Ups(window) / |window|
      else if Down in Window(history[..n]) then Weight(w0, history[..n])
      else 0
  }

  lemma FloorOfQuotient(a: nat, n: nat)
    requires n > 0
    ensures (a as real / n as real).Floor == a / n
  {
    var q, r := a / n, a % n;
    assert a == n * q + r;
    assert a as real == n as real * q as real + r as real;
    assert a as real / n as real == q as real + r as real / n as real;
  }

  /** Scaling by the health of a window is the exact integer quotient. */
  lemma ScaleByHealth(w0: uint32, record: seq<Status>)
    requires record != [] && Probes(record)
    ensures Scale(w0, Health(record)) == w0 * Ups(record) / |record|
    ensures Scale(w0, Health(record)) <= w0
    ensures w0 > 0 ==> (Scale(w0, Health(record)) == w0 <==> Down !in record)
  {
    HealthIsUpShare(record);
    CodeSumCountsDowns(record);
    QuotientBelow(w0, Ups(record), |record|);
    ScaleShare(w0, Ups(record), |record|, Health(record));
  }

  lemma ScaleShare(w: uint32, u: nat, n: nat, health: real)
    requires n > 0 && health == Share(u, n) && 0.0 <= health
    requires 0 <= w * u / n <= w
    ensures Scale(w, health) == w * u / n
  {
    var q := w * u / n;
    FloorOfProduct(w, u, n, health);
    ScaleIsFloor(w, health, q);
  }

  lemma ScaleIsFloor(w: uint32, health: real, q: uint32)
    requires 0.0 <= health && (w as real * health).Floor == q
    ensures Scale(w, health) == q
  {}

  lemma FloorOfProduct(w: nat, u: nat, n: nat, health: real)
    requires n > 0 && health == Share(u, n)
    ensures (w as real * health).Floor == w * u / n
  {
    RealScale(w as real, u as real, n as real);
    ProductAsReal(w, u);
    FloorOfQuotient(w * u, n);
  }

  lemma ProductAsReal(w: nat, u: nat)
    ensures w as real * u as real == (w * u) as real
  {}

  lemma RealScale(w: real, u: real, n: real)
    requires n > 0.0
    ensures w * (u / n) == w * u / n
  {}

  lemma MulMonotone(a: int, b: int, c: int)
    requires a <= b && 0 <= c
    ensures a * c <= b * c
  {}

  lemma DivBounds(a: nat, n: nat)
    requires n > 0
    ensures n * (a / n) <= a < n * (a / n) + n
  {}

  lemma QuotientBelow(w: nat, u: nat, n: nat)
    requires u <= n && n > 0
    ensures 0 <= w * u / n <= w
    ensures w > 0 ==> (w * u / n == w <==> u == n)
  {
    QuotientAtMost(w, u, n);
    if u < n && w > 0 {
      QuotientShort(w, u, n);
    }
    if u == n {
      QuotientFull(w, n);
    }
  }

  lemma QuotientAtMost(w: nat, u: nat, n: nat)
    requires u <= n && n > 0
    ensures w * u / n <= w
  {
    var q := w * u / n;
    DivBounds(w * u, n);
    MulMonotone(u, n, w);
    if q > w {
      MulMonotone(w + 1, q, n);
    }
  }

  lemma QuotientShort(w: nat, u: nat, n: nat)
    requires u < n && w > 0
    ensures w * u / n < w
  {
    var q := w * u / n;
    DivBounds(w * u, n);
    MulMonotone(u + 1, n, w);
    if q >= w {
      MulMonotone(w, q, n);
    }
  }

  lemma QuotientFull(w: nat, n: nat)
    requires n > 0
    ensures w * n / n == w
  {
    var q := w * n / n;
    DivBounds(w * n, n);
    if q < w {
      MulMonotone(q + 1, w, n);
    }
    if q > w {
      MulMonotone(w + 1, q, n);
    }
  }

  lemma ProbesOfPrefix(history: seq<Status>)
    requires Probes(history)
    ensures Probes(Window(history))
    ensures history != [] ==> Probes(history[..|history| - 1])
  {}

  /** A Down that leaves the window takes nothing else with it: the new window
      is the old one without its oldest entry, plus the new status. */
  lemma WindowOf(history: seq<Status>, status: Status)
    ensures status in Window(history + [status])
    ensures Down in Window(history) && |history| < WINDOW ==> Down in Window(history + [status])
    ensures Down !in Window(history) && status != Down ==> Down !in Window(history + [status])
  {
    var w := Window(history + [status]);
    assert w[|w| - 1] == status;
    if |history| < WINDOW {
      assert w == Window(history) + [status];
    } else {
      assert w == Window(history)[1..] + [status];
    }
  }

  /** The stash machine computes the stateless meaning, and its entry is
      present exactly while the window holds a Down. */
  lemma {:induction false} StashLaw(w0: uint32, history: seq<Status>)
    requires w0 > 0 && Probes(history)
    ensures Course0(w0, history).weight == Weight(w0, history)
    ensures Course0(w0, history).stash == if Down in Window(history) then Some(w0) else None
  {
    if history != [] {
      var n := |history| - 1;
      var before := history[..n];
      assert history == before + [history[n]];
      StashLaw(w0, before);
      Course0Step(w0, history);
      ProbesOfPrefix(history);
      WindowOf(before, history[n]);
      ScaleByHealth(w0, Window(history));
      if Down !in Window(before) {
        NoDownKeepsWeight(w0, before);
        if history[n] == Up {
          NoDownKeepsWeight(w0, history);
        }
      }
    }
  }

  /** A window without a Down means full weight. */
  lemma NoDownKeepsWeight(w0: uint32, history: seq<Status>)
    requires Probes(history) && Down !in Window(history)
    ensures Weight(w0, history) == w0
  {
    if history != [] {
      var window := Window(history);
      assert window[|window| - 1] == history[|history| - 1];
      ProbesOfPrefix(history);
      CodeSumCountsDowns(window);
      QuotientBelow(w0, Ups(window), |window|);
    }
  }

  /** "A failing backend has weight zero" holds after a Down exactly when the
      window before it held no Down, or the weight had come to zero anyway. */
  lemma DownIsZeroExactly(w0: uint32, history: seq<Status>)
    requires w0 > 0 && Probes(history) && history != [] && history[|history| - 1] == Down
    ensures var before := history[..|history| - 1];
            Course0(w0, history).weight == 0 <==> Down !in Window(before) || Course0(w0, before).weight == 0
  {
    ProbesOfPrefix(history);
    StashLaw(w0, history);
    StashLaw(w0, history[..|history| - 1]);
  }

  /** Down, Up, Down: the second Down leaves half the weight in place. */
  lemma DownNeedNotBeZero()
    ensures Course0(100, [Down, Up, Down]).weight == 50
  {
    var h := [Down, Up, Down];
    StashLaw(100, h);
    assert h[..2] == [Down, Up] && [Down, Up][..1] == [Down] && [Down][..0] == [];
    assert Window([Down, Up])[0] == Down;
    assert Ups([Down, Up]) == 1;
    assert Weight(100, [Down, Up]) == 50;
  }

  /** Whatever the kernel refuses along the way, the configured weight is never
      lost: it is the stashed value if there is one and the current weight
      otherwise; and the current weight never exceeds it. */
  lemma {:induction false} WeightConserved(w0: uint32, history: seq<Status>, oks: seq<bool>)
    requires |oks| == |history| && Probes(history)
    ensures var c := Follow(w0, history, oks);
            && (if c.stash.Some? then c.stash.value else c.weight) == w0
            && c.weight <= w0
  {
    if history != [] {
      var n := |history| - 1;
      WeightConserved(w0, history[..n], oks[..n]);
      ProbesOfPrefix(history);
      ScaleByHealth(w0, Window(history));
    }
  }

  function Streak(k: nat): seq<Status> {
    seq(k, _ => Up)
  }

  /** The history after a Down followed by k Ups. */
  function Recovering(history: seq<Status>, k: nat): (h: seq<Status>)
    ensures |h| == |history| + 1 + k
    ensures h[|history|] == Down && forall i :: |history| < i < |h| ==> h[i] == Up
  {
    history + [Down] + Streak(k)
  }

  lemma RecoveringProbes(history: seq<Status>, k: nat)
    requires Probes(history)
    ensures Probes(Recovering(history, k)) && Probes(Window(Recovering(history, k)))
    ensures Down in Window(Recovering(history, k)) <==> k < WINDOW
    ensures k > 0 ==> Recovering(history, k)[..|history| + k] == Recovering(history, k - 1)
  {
    var h := Recovering(history, k);
    var w := Window(h);
    var cut := |h| - |w|;
    assert forall i :: 0 <= i < |w| ==> w[i] == h[cut + i];
    if k < WINDOW {
      assert w[|history| - cut] == Down;
    }
  }

  /** Recovery is gradual, monotone and exact: over consecutive Ups after a
      Down the weight never falls, stays below w0 for the first 99, and is w0
      with the stash entry gone from the 100th on. */
  lemma RecoveryIsTight(w0: uint32, history: seq<Status>, k: nat)
    requires w0 > 0 && Probes(history) && k > 0
    ensures var c := Course0(w0, Recovering(history, k));
            && (k < 100 ==> c.weight < w0 && c.stash == Some(w0))
            && (k >= 100 ==> c.weight == w0 && c.stash == None)
            && (k > 1 || Down !in Window(history) ==> Course0(w0, Recovering(history, k - 1)).weight <= c.weight)
  {
    var h := Recovering(history, k);
    RecoveringProbes(history, k);
    StashLaw(w0, h);
    CodeSumCountsDowns(Window(h));
    QuotientBelow(w0, Ups(Window(h)), |Window(h)|);
    var g := Recovering(history, k - 1);
    RecoveringProbes(history, k - 1);
    StashLaw(w0, g);
    if k > 1 {
      assert g[|g| - 1] == Up;
      ShareGrows(g);
      assert h == g + [Up];
      QuotientMonotone(w0, Ups(Window(g)), |Window(g)|, Ups(Window(h)), |Window(h)|);
    } else if Down !in Window(history) {
      assert g[..|history|] == history;
    }
  }

  lemma {:induction false} UpsOfTail(record: seq<Status>)
    requires record != []
    ensures Ups(record) == Ups(record[1..]) + (if record[0] == Up then 1 else 0)
  {
    if |record| > 1 {
      var init := record[..|record| - 1];
      UpsOfTail(init);
      assert record[1..][..|record| - 2] == init[1..];
    }
  }

  /** One more Up never lowers the share of Ups in the window. */
  lemma ShareGrows(history: seq<Status>)
    requires history != []
    ensures var v, w := Window(history), Window(history + [Up]);
            Ups(v) * |w| <= Ups(w) * |v|
  {
    var v, w := Window(history), Window(history + [Up]);
    if |history| < WINDOW {
      assert w == v + [Up];
      assert w[..|v|] == v;
      assert Ups(v) * (|v| + 1) <= (Ups(v) + 1) * |v|;
    } else {
      assert w == v[1..] + [Up];
      assert w[..|w| - 1] == v[1..];
      UpsOfTail(v);
    }
  }

  /** An Up lowers the weight exactly when the message before it was a Down that
      found another Down in the window, and so left the weight alone, and the
      share of Ups has since sunk below that weight. */
  lemma UpLowersExactly(w0: uint32, history: seq<Status>)
    requires w0 > 0 && Probes(history)
    ensures Course0(w0, history + [Up]).weight < Course0(w0, history).weight <==>
            && history != [] && history[|history| - 1] == Down
            && var before, window := history[..|history| - 1], Window(history + [Up]);
               Down in Window(before) && w0 * Ups(window) / |window| < Course0(w0, before).weight
  {
    var more := history + [Up];
    StashLaw(w0, history);
    StashLaw(w0, more);
    if history == [] {
      assert Window(more) == [Up];
      CodeSumCountsDowns(Window(more));
      QuotientFull(w0, 1);
    } else if history[|history| - 1] == Up {
      ShareGrows(history);
      QuotientMonotone(w0, Ups(Window(history)), |Window(history)|, Ups(Window(more)), |Window(more)|);
    } else {
      ProbesOfPrefix(history);
      StashLaw(w0, history[..|history| - 1]);
    }
  }

  /** It happens: Down, Up, Up, Down on weight 100 stands at 66, the next
      Up takes it to 60. */
  lemma UpCanLower()
    ensures Course0(100, [Down, Up, Up, Down]).weight == 66
    ensures Course0(100, [Down, Up, Up, Down, Up]).weight == 60
  {
    var g, h := [Down, Up, Up, Down], [Down, Up, Up, Down, Up];
    StashLaw(100, g);
    StashLaw(100, h);
    FewUps();
    assert g[..3] == [Down, Up, Up] && h[..4] == g;
    assert Window(g[..3])[0] == Down;
    assert Weight(100, [Down, Up, Up]) == 100 * 2 / 3;
    assert Weight(100, h) == 100 * 3 / 5;
  }

  lemma FewUps()
    ensures Ups([Down, Up, Up]) == 2 && Ups([Down, Up, Up, Down, Up]) == 3
  {
    assert [Down, Up, Up][..2] == [Down, Up] && [Down, Up][..1] == [Down] && [Down][..0] == [];
    assert Ups([Down]) == 0 && Ups([Down, Up]) == 1;
    assert [Down, Up, Up, Down, Up][..4] == [Down, Up, Up, Down] && [Down, Up, Up, Down][..3] == [Down, Up, Up];
    assert Ups([Down, Up, Up, Down]) == 2;
  }

  /** An Up right after an Up never lowers a recovering weight. */
  lemma ScaleGrows(w: uint32, history: seq<Status>)
    requires Probes(history) && history != []
    ensures Scale(w, Health(Window(history))) <= Scale(w, Health(Window(history + [Up])))
  {
    var g, h := Window(history), Window(history + [Up]);
    ProbesOfPrefix(history);
    ProbesOfPrefix(history + [Up]);
    ScaleByHealth(w, g);
    ScaleByHealth(w, h);
    ShareGrows(history);
    QuotientMonotone(w, Ups(g), |g|, Ups(h), |h|);
  }

  lemma QuotientMonotone(w: nat, u: nat, n: nat, x: nat, m: nat)
    requires n > 0 && m > 0 && u * m <= x * n
    ensures w * u / n <= w * x / m
  {
    var p, q := w * u / n, w * x / m;
    DivBounds(w * u, n);
    DivBounds(w * x, m);
    if q < p {
      MulMonotone(q + 1, p, m);
      Chain(w, u, n, x, m, p);
    }
  }

  lemma Chain(w: nat, u: nat, n: nat, x: nat, m: nat, p: nat)
    requires n > 0 && u * m <= x * n && n * p <= w * u
    ensures m * p <= w * x
  {
    MulMonotone(n * p, w * u, m);
    MulMonotone(u * m, x * n, w);
    assert n * (m * p) <= n * (w * x);
    if m * p > w * x {
      MulMonotone(w * x + 1, m * p, n);
    }
  }
}
