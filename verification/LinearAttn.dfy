/** The recurrent mixers: causal short convolution with a carried tail, its packed form, the
    gated delta rule with a carried state, and the decay reparameterisation. A convolution is
    any function of the last `k` raw inputs. The delta rule is run over a whole head, whose state
    has one row per value channel; the laws are stated for one row, since channels do not interact. */
module LinearAttn {
  // ---- causal convolution --------------------------------------------------------

  function Zeros<X>(zero: X, n: nat): (r: seq<X>)
    ensures |r| == n
  {
    seq(n, _ => zero)
  }

  /** Output `t` sees the window of `k` inputs that ends at input `t`. */
  function ConvOuts<X, Y>(f: seq<X> -> Y, k: nat, ext: seq<X>, n: nat): (r: seq<Y>)
    requires k >= 1 && |ext| == k - 1 + n
    ensures |r| == n
  {
    seq(n, t requires 0 <= t < n => f(ext[t..t + k]))
  }

  /** A convolution call: outputs and the tail that carries the history on. */
  function Conv<X, Y>(f: seq<X> -> Y, k: nat, tail: seq<X>, xs: seq<X>): (r: (seq<Y>, seq<X>))
    requires k >= 1 && |tail| == k - 1
    ensures |r.0| == |xs| && |r.1| == k - 1
  {
    (ConvOuts(f, k, tail + xs, |xs|), (tail + xs)[|xs|..])
  }

  /** What output `t` sees: the `k` inputs up to its own, the carried ones first. */
  lemma ConvSees<X, Y>(f: seq<X> -> Y, k: nat, tail: seq<X>, xs: seq<X>, t: nat, window: seq<X>)
    requires k >= 1 && |tail| == k - 1 && t < |xs| && |window| == k
    requires forall i :: 0 <= i < k ==> window[i] == if t + i < k - 1 then tail[t + i] else xs[t + i - (k - 1)]
    ensures Conv(f, k, tail, xs).0[t] == f(window)
  {
    assert (tail + xs)[t..t + k] == window;
  }

  /** The tail after each token of a call. */
  function TailTrajectory<X>(k: nat, tail: seq<X>, xs: seq<X>): (r: seq<seq<X>>)
    requires k >= 1 && |tail| == k - 1
    ensures |r| == |xs|
  {
    seq(|xs|, t requires 0 <= t < |xs| => (tail + xs)[t + 1..t + k])
  }

  lemma Subslice<X>(s: seq<X>, from: nat, to: nat, i: nat, j: nat)
    requires from <= to <= |s| && i <= j <= to - from
    ensures s[from..to][i..j] == s[from + i..from + j]
  {
    forall m | 0 <= m < j - i ensures s[from..to][i..j][m] == s[from + i..from + j][m] {
      assert s[from..to][i + m] == s[from + i + m];
    }
  }

  /** Cutting the input anywhere and carrying the tail over changes nothing. */
  lemma ConvSplit<X, Y>(f: seq<X> -> Y, k: nat, tail: seq<X>, xs: seq<X>, ys: seq<X>)
    requires k >= 1 && |tail| == k - 1
    ensures
      var (a, mid) := Conv(f, k, tail, xs);
      var (b, end) := Conv(f, k, mid, ys);
      Conv(f, k, tail, xs + ys) == (a + b, end)
  {
    var (a, mid) := Conv(f, k, tail, xs);
    var (b, end) := Conv(f, k, mid, ys);
    var whole := tail + (xs + ys);
    assert whole[|xs|..] == mid + ys && whole[|xs|..|whole|] == mid + ys;
    var all := ConvOuts(f, k, whole, |xs + ys|);
    forall t | 0 <= t < |xs + ys| ensures all[t] == (a + b)[t] {
      if t < |xs| {
        assert whole[t..t + k] == (tail + xs)[t..t + k];
      } else {
        Subslice(whole, |xs|, |whole|, t - |xs|, t - |xs| + k);
      }
    }
    assert all == a + b;
    assert whole[|xs + ys|..] == (mid + ys)[|ys|..];
  }

  /** Trajectory entry `t` is the tail after exactly `t + 1` tokens. */
  lemma TailAfter<X, Y>(f: seq<X> -> Y, k: nat, tail: seq<X>, xs: seq<X>, t: nat)
    requires k >= 1 && |tail| == k - 1 && t < |xs|
    ensures TailTrajectory(k, tail, xs)[t] == Conv(f, k, tail, xs[..t + 1]).1
  {
    assert (tail + xs[..t + 1])[t + 1..] == (tail + xs)[t + 1..t + k];
  }

  /** The verify loop of a recurrent layer: one single-token call per token, recording the tail
      after each. It equals one call over all of them. */
  method ConvVerify<X, Y>(f: seq<X> -> Y, k: nat, tail: seq<X>, xs: seq<X>)
    returns (outs: seq<Y>, end: seq<X>, trajectory: seq<seq<X>>)
    requires k >= 1 && |tail| == k - 1
    ensures (outs, end) == Conv(f, k, tail, xs) && trajectory == TailTrajectory(k, tail, xs)
  {
    outs, end, trajectory := [], tail, [];
    assert tail + xs[..0] == tail;
    for t := 0 to |xs|
      invariant (outs, end) == Conv(f, k, tail, xs[..t]) && |trajectory| == t
      invariant forall s :: 0 <= s < t ==> trajectory[s] == TailTrajectory(k, tail, xs)[s]
    {
      var (y, next) := Conv(f, k, end, [xs[t]]);
      ConvSplit(f, k, tail, xs[..t], [xs[t]]);
      assert xs[..t + 1] == xs[..t] + [xs[t]];
      TailAfter(f, k, tail, xs, t);
      outs, end, trajectory := outs + y, next, trajectory + [next];
    }
    assert xs[..|xs|] == xs;
    assert trajectory == TailTrajectory(k, tail, xs);
  }

  // ---- packed convolution --------------------------------------------------------

  /** Cumulative token counts of the packed sequences. */
  predicate Boundaries(cu: seq<nat>, total: nat) {
    |cu| >= 1 && cu[0] == 0 && cu[|cu| - 1] == total && forall i, j :: 0 <= i <= j < |cu| ==> cu[i] <= cu[j]
  }

  /** How many boundaries lie at or before token `r`. */
  function SearchRight(cu: seq<nat>, r: nat): (n: nat)
    ensures n <= |cu|
  {
    if cu == [] then 0 else SearchRight(cu[..|cu| - 1], r) + if cu[|cu| - 1] <= r then 1 else 0
  }

  /** With increasing boundaries those at or before `r` come first. */
  lemma {:induction false} SearchRightSplits(cu: seq<nat>, r: nat)
    requires forall i, j :: 0 <= i <= j < |cu| ==> cu[i] <= cu[j]
    ensures forall i :: 0 <= i < |cu| ==> (i < SearchRight(cu, r) <==> cu[i] <= r)
  {
    if cu != [] {
      var init := cu[..|cu| - 1];
      SearchRightSplits(init, r);
      forall i | 0 <= i < |cu| ensures i < SearchRight(cu, r) <==> cu[i] <= r {
        if i < |init| { assert init[i] == cu[i]; }
        if cu[|cu| - 1] <= r && |init| > 0 { assert init[|init| - 1] <= r; }
      }
    }
  }

  lemma {:induction false} SearchRightGrows(cu: seq<nat>, a: nat, b: nat)
    requires a <= b
    ensures SearchRight(cu, a) <= SearchRight(cu, b)
  {
    if cu != [] { SearchRightGrows(cu[..|cu| - 1], a, b); }
  }

  /** The packed sequence token `r` belongs to. */
  function SeqId(cu: seq<nat>, r: nat): int {
    SearchRight(cu, r) - 1
  }

  lemma SeqIdOf(cu: seq<nat>, total: nat, r: nat)
    requires Boundaries(cu, total) && r < total
    ensures 0 <= SeqId(cu, r) < |cu| - 1 && cu[SeqId(cu, r)] <= r < cu[SeqId(cu, r) + 1]
  {
    SearchRightSplits(cu, r);
  }

  /** Where token `r` goes in the stream: behind its sequence's gap and all earlier gaps. */
  function Target(cu: seq<nat>, sep: nat, r: nat): int {
    r + SeqId(cu, r) * sep + sep
  }

  lemma {:induction false} MulStep(a: nat, b: nat, sep: nat)
    requires a < b
    ensures a * sep + sep <= b * sep
    decreases b
  {
    assert b * sep == (b - 1) * sep + sep;
    if a + 1 < b { MulStep(a, b - 1, sep); }
  }

  /** Tokens land in order, each inside the stretch of its own sequence. */
  lemma TargetOf(cu: seq<nat>, total: nat, sep: nat, s: nat, r: nat)
    requires Boundaries(cu, total) && s < |cu| - 1 && cu[s] <= r < cu[s + 1]
    ensures SeqId(cu, r) == s && Target(cu, sep, r) == r + s * sep + sep
  {
    SearchRightSplits(cu, r);
  }

  /** No token lands in the gap before sequence `s`. */
  lemma GapFree(cu: seq<nat>, total: nat, sep: nat, s: nat, i: nat, r: nat)
    requires Boundaries(cu, total) && s < |cu| && i < sep && r < total
    ensures Target(cu, sep, r) != cu[s] + s * sep + i
  {
    SeqIdOf(cu, total, r);
    var q := SeqId(cu, r);
    if q < s {
      MulStep(q, s, sep);
      assert cu[q + 1] <= cu[s];
    } else if q > s {
      MulStep(s, q, sep);
      assert cu[s] <= cu[q];
    }
  }

  lemma TargetsDiffer(cu: seq<nat>, total: nat, sep: nat, a: nat, b: nat)
    requires Boundaries(cu, total) && a < b < total
    ensures Target(cu, sep, a) < Target(cu, sep, b)
  {
    SeqIdOf(cu, total, a);
    SeqIdOf(cu, total, b);
    SearchRightGrows(cu, a, b);
    if SeqId(cu, a) < SeqId(cu, b) {
      MulStep(SeqId(cu, a), SeqId(cu, b), sep);
    }
  }

  lemma TargetInside(cu: seq<nat>, total: nat, sep: nat, r: nat)
    requires Boundaries(cu, total) && r < total
    ensures 0 <= Target(cu, sep, r) - sep && Target(cu, sep, r) < total + sep * |cu|
  {
    SeqIdOf(cu, total, r);
    MulStep(SeqId(cu, r), |cu| - 1, sep);
    assert SeqId(cu, r) * sep >= 0;
  }

  /** The stream holds `sep` zeros and then its tokens for every packed sequence. */
  ghost predicate Scattered<X>(stream: seq<X>, us: seq<X>, cu: seq<nat>, sep: nat, zero: X)
    requires Boundaries(cu, |us|)
  {
    && |stream| == |us| + sep * |cu|
    && (forall r :: 0 <= r < |us| ==> 0 <= Target(cu, sep, r) < |stream| && stream[Target(cu, sep, r)] == us[r])
    && (forall p :: 0 <= p < |stream| && (forall r :: 0 <= r < |us| ==> Target(cu, sep, r) != p) ==> stream[p] == zero)
  }

  /** One scatter into a fresh zero buffer. */
  method Scatter<X>(us: seq<X>, cu: seq<nat>, sep: nat, zero: X) returns (stream: array<X>)
    requires Boundaries(cu, |us|)
    ensures fresh(stream) && Scattered(stream[..], us, cu, sep, zero)
  {
    stream := new X[|us| + sep * |cu|](_ => zero);
    for r := 0 to |us|
      invariant forall a :: 0 <= a < r ==> 0 <= Target(cu, sep, a) < stream.Length && stream[Target(cu, sep, a)] == us[a]
      invariant forall p :: 0 <= p < stream.Length && (forall a :: 0 <= a < r ==> Target(cu, sep, a) != p) ==> stream[p] == zero
    {
      TargetInside(cu, |us|, sep, r);
      forall a | 0 <= a < r ensures Target(cu, sep, a) != Target(cu, sep, r) { TargetsDiffer(cu, |us|, sep, a, r); }
      stream[Target(cu, sep, r)] := us[r];
    }
  }

  /** The tokens of packed sequence `s`. */
  function Segment<X>(us: seq<X>, cu: seq<nat>, s: nat): seq<X>
    requires Boundaries(cu, |us|) && s < |cu| - 1
  {
    us[cu[s]..cu[s + 1]]
  }

  /** Sequence `s`'s stretch of the stream is its own zero-padded input. */
  lemma StretchOf<X>(stream: seq<X>, us: seq<X>, cu: seq<nat>, sep: nat, zero: X, s: nat)
    requires Boundaries(cu, |us|) && Scattered(stream, us, cu, sep, zero) && s < |cu| - 1
    ensures 0 <= cu[s] + s * sep && cu[s + 1] + s * sep + sep <= |stream|
    ensures stream[cu[s] + s * sep..cu[s + 1] + s * sep + sep] == Zeros(zero, sep) + Segment(us, cu, s)
  {
    MulStep(s, |cu| - 1, sep);
    MulStep(s, |cu|, sep);
    assert s * sep >= 0;
    var from, want := cu[s] + s * sep, Zeros(zero, sep) + Segment(us, cu, s);
    assert cu[s + 1] <= |us|;
    forall i | 0 <= i < |want| ensures stream[from + i] == want[i] {
      if i < sep {
        forall r | 0 <= r < |us| ensures Target(cu, sep, r) != from + i { GapFree(cu, |us|, sep, s, i, r); }
      } else {
        TargetOf(cu, |us|, sep, s, cu[s] + i - sep);
      }
    }
  }

  /** What serial calls from a zero tail give sequence `s`. */
  function Serial<X, Y>(f: seq<X> -> Y, k: nat, zero: X, us: seq<X>, cu: seq<nat>, s: nat): (seq<Y>, seq<X>)
    requires k >= 1 && Boundaries(cu, |us|) && s < |cu| - 1
  {
    Conv(f, k, Zeros(zero, k - 1), Segment(us, cu, s))
  }

  /** The packed convolution: one pass over the zero-separated stream gives every sequence the
      outputs and the trailing window of its own serial call. */
  method ConvSegmented<X, Y>(f: seq<X> -> Y, k: nat, us: seq<X>, cu: seq<nat>, zero: X)
    returns (outs: seq<Y>, tails: seq<seq<X>>)
    requires k >= 1 && Boundaries(cu, |us|)
    ensures |outs| == |us| && |tails| == |cu| - 1
    ensures forall s :: 0 <= s < |cu| - 1 ==>
      outs[cu[s]..cu[s + 1]] == Serial(f, k, zero, us, cu, s).0 && tails[s] == Serial(f, k, zero, us, cu, s).1
  {
    var sep := k - 1;
    var buffer := Scatter(us, cu, sep, zero);
    var stream := buffer[..];
    SepTotal(|us|, sep, |cu|);
    var all := ConvOuts(f, k, stream, |stream| - sep);
    forall r | 0 <= r < |us| ensures 0 <= Target(cu, sep, r) - sep < |all| { TargetInside(cu, |us|, sep, r); }
    outs := seq(|us|, r requires 0 <= r < |us| && 0 <= Target(cu, sep, r) - sep < |all| => all[Target(cu, sep, r) - sep]);
    forall s | 0 <= s < |cu| - 1 ensures 0 <= cu[s + 1] + s * sep && cu[s + 1] + s * sep + sep <= |stream| {
      StretchOf(stream, us, cu, sep, zero, s);
    }
    tails := seq(|cu| - 1, s requires 0 <= s < |cu| - 1 && 0 <= cu[s + 1] + s * sep && cu[s + 1] + s * sep + sep <= |stream|
                           => stream[cu[s + 1] + s * sep..cu[s + 1] + s * sep + sep]);
    forall s | 0 <= s < |cu| - 1
      ensures outs[cu[s]..cu[s + 1]] == Serial(f, k, zero, us, cu, s).0 && tails[s] == Serial(f, k, zero, us, cu, s).1
    {
      SegmentOuts(f, k, stream, us, cu, zero, s, all, outs);
      SegmentTail(f, k, stream, us, cu, zero, s);
    }
  }

  lemma SepTotal(n: nat, sep: nat, m: nat)
    requires m >= 1
    ensures n + sep * m >= sep
  {
    assert sep * (m - 1) >= 0;
  }

  /** Output `r` is what the pass over the stream gave where token `r` stands. */
  ghost predicate Picked<Y>(cu: seq<nat>, sep: nat, all: seq<Y>, outs: seq<Y>) {
    forall r :: 0 <= r < |outs| ==> 0 <= Target(cu, sep, r) - sep < |all| && outs[r] == all[Target(cu, sep, r) - sep]
  }

  lemma SegmentOuts<X, Y>(f: seq<X> -> Y, k: nat, stream: seq<X>, us: seq<X>, cu: seq<nat>, zero: X, s: nat,
                          all: seq<Y>, outs: seq<Y>)
    requires k >= 1 && Boundaries(cu, |us|) && s < |cu| - 1 && Scattered(stream, us, cu, k - 1, zero)
    requires |stream| >= k - 1 && all == ConvOuts(f, k, stream, |stream| - (k - 1)) && |outs| == |us|
    requires Picked(cu, k - 1, all, outs)
    ensures outs[cu[s]..cu[s + 1]] == Serial(f, k, zero, us, cu, s).0
  {
    var want := Serial(f, k, zero, us, cu, s).0;
    assert |want| == |Segment(us, cu, s)|;
    forall j | 0 <= j < |Segment(us, cu, s)| ensures outs[cu[s] + j] == want[j] {
      SegmentOut(f, k, stream, us, cu, zero, s, all, outs, j);
    }
  }

  lemma SegmentOut<X, Y>(f: seq<X> -> Y, k: nat, stream: seq<X>, us: seq<X>, cu: seq<nat>, zero: X, s: nat,
                         all: seq<Y>, outs: seq<Y>, j: nat)
    requires k >= 1 && Boundaries(cu, |us|) && s < |cu| - 1 && Scattered(stream, us, cu, k - 1, zero)
    requires |stream| >= k - 1 && all == ConvOuts(f, k, stream, |stream| - (k - 1)) && |outs| == |us|
    requires Picked(cu, k - 1, all, outs)
    requires j < |Segment(us, cu, s)|
    ensures outs[cu[s] + j] == Serial(f, k, zero, us, cu, s).0[j]
  {
    hide Scattered;
    var sep := k - 1;
    StretchOf(stream, us, cu, sep, zero, s);
    var from := cu[s] + s * sep;
    TargetOf(cu, |us|, sep, s, cu[s] + j);
    assert all[from + j] == f(stream[from + j..from + j + k]);
    Subslice(stream, from, cu[s + 1] + s * sep + sep, j, j + k);
  }

  lemma SegmentTail<X, Y>(f: seq<X> -> Y, k: nat, stream: seq<X>, us: seq<X>, cu: seq<nat>, zero: X, s: nat)
    requires k >= 1 && Boundaries(cu, |us|) && s < |cu| - 1 && Scattered(stream, us, cu, k - 1, zero)
    ensures
      var end := cu[s + 1] + s * (k - 1);
      0 <= end && end + (k - 1) <= |stream| && stream[end..end + (k - 1)] == Serial(f, k, zero, us, cu, s).1
  {
    var sep := k - 1;
    StretchOf(stream, us, cu, sep, zero, s);
    var from, ext := cu[s] + s * sep, Zeros(zero, sep) + Segment(us, cu, s);
    var n := |Segment(us, cu, s)|;
    assert stream[from..cu[s + 1] + s * sep + sep][n..] == ext[n..];
  }

  // ---- the gated delta rule ------------------------------------------------------

  type Vec = seq<real>

  /** One token of one value channel. */
  datatype Input = Input(q: Vec, k: Vec, v: real, alpha: real, beta: real)

  function Dot(a: Vec, b: Vec): real
    requires |a| == |b|
  {
    if a == [] then 0.0 else Dot(a[..|a| - 1], b[..|b| - 1]) + a[|a| - 1] * b[|b| - 1]
  }

  function Scale(c: real, a: Vec): (r: Vec)
    ensures |r| == |a|
  {
    seq(|a|, j requires 0 <= j < |a| => c * a[j])
  }

  lemma ScalePrefix(c: real, a: Vec, n: nat)
    requires n <= |a|
    ensures Scale(c, a)[..n] == Scale(c, a[..n])
  {
    forall j | 0 <= j < n ensures Scale(c, a)[..n][j] == Scale(c, a[..n])[j] { assert a[..n][j] == a[j]; }
  }

  lemma {:induction false} DotScale(c: real, a: Vec, b: Vec)
    requires |a| == |b|
    ensures Dot(Scale(c, a), b) == Dot(a, b) * c
  {
    if a != [] {
      var n := |a| - 1;
      DotScale(c, a[..n], b[..n]);
      ScalePrefix(c, a, n);
      Spread(c, Dot(a[..n], b[..n]), a[n], b[n]);
    }
  }

  lemma Spread(c: real, d: real, x: real, y: real)
    ensures d * c + (c * x) * y == (d + x * y) * c
  {
  }

  function Plus(a: Vec, b: Vec): (r: Vec)
    requires |a| == |b|
    ensures |r| == |a|
  {
    seq(|a|, j requires 0 <= j < |a| => a[j] + b[j])
  }

  lemma {:induction false} DotPlus(a: Vec, b: Vec, u: Vec)
    requires |a| == |b| == |u|
    ensures Dot(Plus(a, b), u) == Dot(a, u) + Dot(b, u)
  {
    if a != [] {
      var n := |a| - 1;
      DotPlus(a[..n], b[..n], u[..n]);
      assert Plus(a, b)[..n] == Plus(a[..n], b[..n]);
    }
  }

  lemma {:induction false} DotCommutes(a: Vec, b: Vec)
    requires |a| == |b|
    ensures Dot(a, b) == Dot(b, a)
  {
    if a != [] { DotCommutes(a[..|a| - 1], b[..|b| - 1]); }
  }

  /** The vector that is 1 at `j` and 0 elsewhere. */
  function Unit(n: nat, j: nat): (r: Vec)
    ensures |r| == n
  {
    seq(n, i => if i == j then 1.0 else 0.0)
  }

  /** Reading at a unit vector reads an entry. */
  lemma {:induction false} DotUnit(a: Vec, j: nat)
    ensures Dot(a, Unit(|a|, j)) == if j < |a| then a[j] else 0.0
  {
    if a != [] {
      var n := |a| - 1;
      DotUnit(a[..n], j);
      assert Unit(|a|, j)[..n] == Unit(n, j);
    }
  }

  predicate Sized(xs: seq<Input>, n: nat) {
    forall t :: 0 <= t < |xs| ==> |xs[t].q| == n && |xs[t].k| == n
  }

  lemma SizedJoin(xs: seq<Input>, ys: seq<Input>, n: nat)
    requires Sized(xs, n) && Sized(ys, n)
    ensures Sized(xs + ys, n)
  {
  }

  lemma SizedPart(xs: seq<Input>, n: nat, t: nat)
    requires Sized(xs, n) && t <= |xs|
    ensures Sized(xs[..t], n)
  {
  }

  lemma FrontPart<X>(xs: seq<X>, ys: seq<X>, t: nat)
    requires t < |xs|
    ensures (xs + ys)[..t + 1] == xs[..t + 1] && (xs + ys)[t] == xs[t]
  {
  }

  lemma JoinPart<X>(xs: seq<X>, ys: seq<X>, t: nat)
    requires t < |ys|
    ensures (xs + ys)[..|xs| + t + 1] == xs + ys[..t + 1] && (xs + ys)[|xs| + t] == ys[t]
  {
  }

  /** Decay the row, erase what it holds for the key, write the value. */
  function DeltaStep(row: Vec, x: Input): (r: Vec)
    requires |x.k| == |row|
    ensures |r| == |row|
  {
    var sk := Dot(row, x.k);
    seq(|row|, j requires 0 <= j < |row| =>
      x.alpha * row[j] - x.alpha * (x.beta * sk) * x.k[j] + x.beta * x.v * x.k[j])
  }

  /** What any vector reads of the state after a token: the decayed reading, and as much of the gated
      error of the decayed prediction at the key as the vector shares with the key. */
  lemma DeltaReads(row: Vec, x: Input, u: Vec)
    requires |x.k| == |row| == |u|
    ensures Dot(DeltaStep(row, x), u)
         == x.alpha * Dot(row, u) + x.beta * (x.v - x.alpha * Dot(row, x.k)) * Dot(x.k, u)
  {
    hide Dot;
    var w := x.beta * (x.v - x.alpha * Dot(row, x.k));
    var got, want := DeltaStep(row, x), Plus(Scale(x.alpha, row), Scale(w, x.k));
    forall j | 0 <= j < |row| ensures got[j] == want[j] {
      DeltaEntry(x.alpha, x.beta, x.v, Dot(row, x.k), row[j], x.k[j]);
    }
    assert got == want;
    DotPlus(Scale(x.alpha, row), Scale(w, x.k), u);
    DotScale(x.alpha, row, u);
    DotScale(w, x.k, u);
  }

  lemma DeltaEntry(alpha: real, beta: real, v: real, sk: real, r: real, k: real)
    ensures alpha * r - alpha * (beta * sk) * k + beta * v * k == alpha * r + beta * (v - alpha * sk) * k
  {
    var e := beta * sk;
    assert alpha * e == beta * (alpha * sk);
    assert beta * (v - alpha * sk) == beta * v - alpha * e;
    assert (beta * v - alpha * e) * k == beta * v * k - alpha * e * k;
  }

  /** The delta rule. At a key of length 1 the state then reads the value, as far as the gate is
      open, and what it read before, decayed, as far as it is not; at anything orthogonal to the
      key it reads what it read before, decayed. */
  ghost predicate Rewritten(was: Vec, now: Vec, x: Input) {
    && |was| == |now| == |x.k|
    && (forall u: Vec :: |u| == |x.k| ==>
          Dot(now, u) == x.alpha * Dot(was, u) + x.beta * (x.v - x.alpha * Dot(was, x.k)) * Dot(x.k, u))
    && (Dot(x.k, x.k) == 1.0 ==> Dot(now, x.k) == x.alpha * (1.0 - x.beta) * Dot(was, x.k) + x.beta * x.v)
    && (Dot(x.k, x.k) == 1.0 && x.beta == 1.0 ==> Dot(now, x.k) == x.v)
    && (forall u: Vec :: |u| == |x.k| && Dot(x.k, u) == 0.0 ==> Dot(now, u) == x.alpha * Dot(was, u))
  }

  lemma DeltaRewrites(row: Vec, x: Input)
    requires |x.k| == |row|
    ensures Rewritten(row, DeltaStep(row, x), x)
  {
    hide Dot, DeltaStep;
    var now := DeltaStep(row, x);
    forall u: Vec | |u| == |x.k|
      ensures Dot(now, u) == x.alpha * Dot(row, u) + x.beta * (x.v - x.alpha * Dot(row, x.k)) * Dot(x.k, u)
      ensures Dot(x.k, u) == 0.0 ==> Dot(now, u) == x.alpha * Dot(row, u)
    {
      DeltaReads(row, x, u);
    }
    AtKey(x.alpha, x.beta, x.v, Dot(row, x.k));
  }

  lemma AtKey(alpha: real, beta: real, v: real, sk: real)
    ensures alpha * sk + beta * (v - alpha * sk) * 1.0 == alpha * (1.0 - beta) * sk + beta * v
    ensures beta == 1.0 ==> alpha * (1.0 - beta) * sk + beta * v == v
  {
    assert beta * (v - alpha * sk) == beta * v - beta * (alpha * sk);
    assert alpha * (1.0 - beta) * sk == alpha * sk - beta * (alpha * sk);
  }

  /** ... and that fixes the state, since its readings do. */
  lemma RewrittenOnce(was: Vec, a: Vec, b: Vec, x: Input)
    requires Rewritten(was, a, x) && Rewritten(was, b, x)
    ensures a == b
  {
    hide Dot;
    forall j | 0 <= j < |a| ensures a[j] == b[j] {
      DotUnit(a, j);
      DotUnit(b, j);
      assert Dot(a, Unit(|a|, j)) == Dot(b, Unit(|a|, j));
    }
  }

  /** The state after all of `xs`. */
  function DeltaState(row: Vec, xs: seq<Input>): (r: Vec)
    requires Sized(xs, |row|)
    ensures |r| == |row|
  {
    if xs == [] then row else DeltaStep(DeltaState(row, xs[..|xs| - 1]), xs[|xs| - 1])
  }

  /** Token `t` reads the state after it. */
  function DeltaOut(row: Vec, xs: seq<Input>, t: nat): real
    requires Sized(xs, |row|) && t < |xs|
  {
    SizedPart(xs, |row|, t + 1);
    Dot(DeltaState(row, xs[..t + 1]), xs[t].q)
  }

  // ---- a whole head --------------------------------------------------------------

  /** One token of one head: a value per channel, one key, one query, one decay, one gate. */
  datatype HeadInput = HeadInput(q: Vec, k: Vec, v: Vec, alpha: real, beta: real)

  predicate HeadSized(xs: seq<HeadInput>, channels: nat, n: nat) {
    forall t :: 0 <= t < |xs| ==> |xs[t].q| == |xs[t].k| == n && |xs[t].v| == channels
  }

  predicate Matrix(s: seq<Vec>, n: nat) {
    forall d :: 0 <= d < |s| ==> |s[d]| == n
  }

  /** Every row of the state times a vector. */
  function Times(s: seq<Vec>, x: Vec): (r: Vec)
    requires Matrix(s, |x|)
    ensures |r| == |s|
  {
    seq(|s|, d requires 0 <= d < |s| => Dot(s[d], x))
  }

  /** The decayed state, minus what it holds for the key, plus the values at the key. */
  function HeadStep(s: seq<Vec>, x: HeadInput): (r: seq<Vec>)
    requires Matrix(s, |x.k|) && |x.v| == |s|
    ensures |r| == |s| && Matrix(r, |x.k|)
  {
    var sk := Times(s, x.k);
    seq(|s|, d requires 0 <= d < |s| =>
      seq(|x.k|, j requires 0 <= j < |x.k| =>
        x.alpha * s[d][j] - x.alpha * (x.beta * sk[d]) * x.k[j] + x.beta * x.v[d] * x.k[j]))
  }

  /** What value channel `d` sees of one token. */
  function ChannelOf(x: HeadInput, d: nat): Input
    requires d < |x.v|
  {
    Input(x.q, x.k, x.v[d], x.alpha, x.beta)
  }

  function Channel(xs: seq<HeadInput>, d: nat): (r: seq<Input>)
    requires forall t :: 0 <= t < |xs| ==> d < |xs[t].v|
    ensures |r| == |xs|
  {
    seq(|xs|, t requires 0 <= t < |xs| => ChannelOf(xs[t], d))
  }

  /** The channels of a head do not interact. */
  lemma HeadStepRow(s: seq<Vec>, x: HeadInput, d: nat)
    requires Matrix(s, |x.k|) && |x.v| == |s| && d < |s|
    ensures HeadStep(s, x)[d] == DeltaStep(s[d], ChannelOf(x, d))
  {
    hide Dot;
    var got, want := HeadStep(s, x)[d], DeltaStep(s[d], ChannelOf(x, d));
    assert Times(s, x.k)[d] == Dot(s[d], x.k);
    forall j | 0 <= j < |x.k| ensures got[j] == want[j] {
    }
  }

  /** After the first `t` tokens every row is its own channel's state. */
  ghost predicate HeadAt(rows: seq<Vec>, xs: seq<HeadInput>, n: nat, t: nat, s: seq<Vec>)
    requires HeadSized(xs, |rows|, n) && Matrix(rows, n) && t <= |xs|
  {
    && |s| == |rows| && Matrix(s, n)
    && forall d :: 0 <= d < |rows| ==>
         Sized(Channel(xs, d)[..t], n) && s[d] == DeltaState(rows[d], Channel(xs, d)[..t])
  }

  lemma HeadNext(rows: seq<Vec>, xs: seq<HeadInput>, n: nat, t: nat, s: seq<Vec>)
    requires HeadSized(xs, |rows|, n) && Matrix(rows, n) && t < |xs| && HeadAt(rows, xs, n, t, s)
    ensures Matrix(s, |xs[t].k|) && |xs[t].v| == |s| && HeadAt(rows, xs, n, t + 1, HeadStep(s, xs[t]))
  {
    hide DeltaStep, HeadStep;
    var now := HeadStep(s, xs[t]);
    forall d | 0 <= d < |rows|
      ensures Sized(Channel(xs, d)[..t + 1], n) && now[d] == DeltaState(rows[d], Channel(xs, d)[..t + 1])
    {
      var part := Channel(xs, d)[..t + 1];
      assert part[..t] == Channel(xs, d)[..t] && part[t] == ChannelOf(xs[t], d);
      HeadStepRow(s, xs[t], d);
    }
  }

  lemma HeadStart(rows: seq<Vec>, xs: seq<HeadInput>, n: nat)
    requires HeadSized(xs, |rows|, n) && Matrix(rows, n)
    ensures HeadAt(rows, xs, n, 0, rows)
  {
    hide DeltaStep;
  }

  /** Every channel reads its own recurrence at token `t`. */
  ghost predicate HeadOut(rows: seq<Vec>, xs: seq<HeadInput>, n: nat, t: nat, out: Vec)
    requires HeadSized(xs, |rows|, n) && Matrix(rows, n) && t < |xs|
  {
    |out| == |rows| && forall d :: 0 <= d < |rows| ==> ChannelOut(rows[d], Channel(xs, d), n, t, out[d])
  }

  ghost predicate ChannelOut(row: Vec, xs: seq<Input>, n: nat, t: nat, out: real) {
    |row| == n && Sized(xs, n) && t < |xs| && out == DeltaOut(row, xs, t)
  }

  /** Every channel's row was rewritten by the delta rule, and the output reads what it is now. */
  ghost predicate HeadRewritten(was: seq<Vec>, now: seq<Vec>, x: HeadInput, out: Vec) {
    && |was| == |now| == |x.v| == |out|
    && forall d :: 0 <= d < |now| ==> RowRewritten(was[d], now[d], ChannelOf(x, d), out[d])
  }

  ghost predicate RowRewritten(was: Vec, now: Vec, x: Input, out: real) {
    Rewritten(was, now, x) && |now| == |x.q| && out == Dot(now, x.q)
  }

  function StateBefore(rows: seq<Vec>, trajectory: seq<seq<Vec>>, t: nat): seq<Vec>
    requires t <= |trajectory|
  {
    if t == 0 then rows else trajectory[t - 1]
  }

  lemma HeadRewrites(s: seq<Vec>, x: HeadInput)
    requires Matrix(s, |x.k|) && |x.v| == |s| && |x.q| == |x.k|
    ensures HeadRewritten(s, HeadStep(s, x), x, Times(HeadStep(s, x), x.q))
  {
    hide Dot, HeadStep, DeltaStep, Rewritten;
    var now := HeadStep(s, x);
    forall d | 0 <= d < |s| ensures RowRewritten(s[d], now[d], ChannelOf(x, d), Times(now, x.q)[d]) {
      HeadStepRow(s, x, d);
      DeltaRewrites(s[d], ChannelOf(x, d));
    }
  }

  /** The recurrence of one head: outputs, the final state, and the state after every token. Every
      channel gets the outputs and states of its own recurrence, and every token rewrites every
      channel's row by the delta rule. */
  method RecurrentDelta(rows: seq<Vec>, xs: seq<HeadInput>, n: nat)
    returns (outs: seq<Vec>, state: seq<Vec>, trajectory: seq<seq<Vec>>)
    requires HeadSized(xs, |rows|, n) && Matrix(rows, n)
    ensures |outs| == |trajectory| == |xs| && state == StateBefore(rows, trajectory, |xs|)
    ensures HeadAt(rows, xs, n, |xs|, state)
    ensures forall t :: 0 <= t < |xs| ==> HeadAt(rows, xs, n, t + 1, trajectory[t]) && HeadOut(rows, xs, n, t, outs[t])
    ensures forall t :: 0 <= t < |xs| ==> HeadRewritten(StateBefore(rows, trajectory, t), trajectory[t], xs[t], outs[t])
  {
    hide HeadStep, HeadAt, HeadOut, Times, HeadRewritten, TokenDone;
    HeadStart(rows, xs, n);
    outs, state, trajectory := [], rows, [];
    for t := 0 to |xs|
      invariant |outs| == |trajectory| == t && state == StateBefore(rows, trajectory, t) && HeadAt(rows, xs, n, t, state)
      invariant forall s :: 0 <= s < t ==> TokenDone(rows, xs, n, outs, trajectory, s)
    {
      HeadNext(rows, xs, n, t, state);
      HeadRewrites(state, xs[t]);
      ghost var were, traced := outs, trajectory;
      state := HeadStep(state, xs[t]);
      HeadReads(rows, xs, n, t, state);
      outs, trajectory := outs + [Times(state, xs[t].q)], trajectory + [state];
      StillDone(rows, xs, n, were, traced, outs, trajectory);
      TokenIs(rows, xs, n, outs, trajectory, t);
    }
    forall t | 0 <= t < |xs|
      ensures HeadAt(rows, xs, n, t + 1, trajectory[t]) && HeadOut(rows, xs, n, t, outs[t])
      ensures HeadRewritten(StateBefore(rows, trajectory, t), trajectory[t], xs[t], outs[t])
    {
      TokenIs(rows, xs, n, outs, trajectory, t);
    }
  }

  /** Token `t` is done: every channel's row is that of its own recurrence, rewritten by the delta
      rule, and was read. */
  ghost predicate TokenDone(rows: seq<Vec>, xs: seq<HeadInput>, n: nat, outs: seq<Vec>, trajectory: seq<seq<Vec>>, t: nat)
    requires HeadSized(xs, |rows|, n) && Matrix(rows, n)
  {
    && t < |xs| && t < |outs| && t < |trajectory|
    && HeadAt(rows, xs, n, t + 1, trajectory[t]) && HeadOut(rows, xs, n, t, outs[t])
    && HeadRewritten(StateBefore(rows, trajectory, t), trajectory[t], xs[t], outs[t])
  }

  lemma TokenIs(rows: seq<Vec>, xs: seq<HeadInput>, n: nat, outs: seq<Vec>, trajectory: seq<seq<Vec>>, t: nat)
    requires HeadSized(xs, |rows|, n) && Matrix(rows, n) && t < |xs| && t < |outs| && t < |trajectory|
    ensures TokenDone(rows, xs, n, outs, trajectory, t) <==>
      && HeadAt(rows, xs, n, t + 1, trajectory[t]) && HeadOut(rows, xs, n, t, outs[t])
      && HeadRewritten(StateBefore(rows, trajectory, t), trajectory[t], xs[t], outs[t])
  {
    hide HeadAt, HeadOut, HeadRewritten;
  }

  lemma StillDone(rows: seq<Vec>, xs: seq<HeadInput>, n: nat, were: seq<Vec>, traced: seq<seq<Vec>>, outs: seq<Vec>,
                  trajectory: seq<seq<Vec>>)
    requires HeadSized(xs, |rows|, n) && Matrix(rows, n) && were <= outs && traced <= trajectory
    requires forall s :: 0 <= s < |were| ==> TokenDone(rows, xs, n, were, traced, s)
    ensures forall s :: 0 <= s < |were| ==> TokenDone(rows, xs, n, outs, trajectory, s)
  {
    hide HeadAt, HeadOut, HeadRewritten;
    forall s | 0 <= s < |were| ensures TokenDone(rows, xs, n, outs, trajectory, s) {
      assert TokenDone(rows, xs, n, were, traced, s);
    }
  }

  /** Reading the whole state reads every channel. */
  lemma HeadReads(rows: seq<Vec>, xs: seq<HeadInput>, n: nat, t: nat, s: seq<Vec>)
    requires HeadSized(xs, |rows|, n) && Matrix(rows, n) && t < |xs| && HeadAt(rows, xs, n, t + 1, s)
    ensures Matrix(s, |xs[t].q|) && HeadOut(rows, xs, n, t, Times(s, xs[t].q))
  {
    hide DeltaState, Dot;
    var out := Times(s, xs[t].q);
    forall d | 0 <= d < |rows| ensures ChannelOut(rows[d], Channel(xs, d), n, t, out[d]) {
      assert out[d] == Dot(s[d], xs[t].q) && Channel(xs, d)[t].q == xs[t].q;
    }
  }

  // ---- where the input is cut ----------------------------------------------------

  /** Cutting the input anywhere and carrying the state over changes nothing. */
  lemma {:induction false} DeltaSplit(row: Vec, xs: seq<Input>, ys: seq<Input>)
    requires Sized(xs, |row|) && Sized(ys, |row|)
    ensures Sized(xs + ys, |row|) && DeltaState(row, xs + ys) == DeltaState(DeltaState(row, xs), ys)
  {
    if ys == [] {
      assert xs + ys == xs;
    } else {
      DeltaSplit(row, xs, ys[..|ys| - 1]);
      assert (xs + ys)[..|xs + ys| - 1] == xs + ys[..|ys| - 1];
    }
  }

  lemma DeltaOutsSplit(row: Vec, xs: seq<Input>, ys: seq<Input>, t: nat)
    requires Sized(xs, |row|) && Sized(ys, |row|)
    ensures Sized(xs + ys, |row|)
    ensures t < |xs| ==> DeltaOut(row, xs + ys, t) == DeltaOut(row, xs, t)
    ensures t < |ys| ==> DeltaOut(row, xs + ys, |xs| + t) == DeltaOut(DeltaState(row, xs), ys, t)
  {
    hide DeltaState, Dot, Sized;
    SizedJoin(xs, ys, |row|);
    if t < |xs| { FrontPart(xs, ys, t); }
    if t < |ys| {
      SizedPart(ys, |row|, t + 1);
      JoinPart(xs, ys, t);
      DeltaSplit(row, xs, ys[..t + 1]);
    }
  }

  /** Committing the trajectory entry of the last accepted token and going on from it is going
      on after having decoded the accepted tokens alone. */
  lemma CommitAccepted(row: Vec, ver: seq<Input>, n: nat, more: seq<Input>)
    requires Sized(ver, |row|) && Sized(more, |row|) && 1 <= n <= |ver|
    ensures
      var committed := DeltaState(row, ver[..(n - 1) + 1]);
      && Sized(ver[..n] + more, |row|)
      && DeltaState(committed, more) == DeltaState(row, ver[..n] + more)
      && forall t :: 0 <= t < |more| ==> DeltaOut(committed, more, t) == DeltaOut(row, ver[..n] + more, n + t)
  {
    hide DeltaState, Dot, DeltaOut, Sized;
    SizedPart(ver, |row|, n);
    DeltaSplit(row, ver[..n], more);
    forall t | 0 <= t < |more|
      ensures DeltaOut(DeltaState(row, ver[..n]), more, t) == DeltaOut(row, ver[..n] + more, n + t)
    {
      DeltaOutsSplit(row, ver[..n], more, t);
    }
  }

  // ---- decay reparameterisation --------------------------------------------------

  /** Decay without the erase term. */
  function DecayStep(row: Vec, x: Input): (r: Vec)
    requires |x.k| == |row|
    ensures |r| == |row|
  {
    seq(|row|, j requires 0 <= j < |row| => x.alpha * row[j] + x.beta * x.v * x.k[j])
  }

  lemma DecayEntries(row: Vec, x: Input)
    requires |x.k| == |row|
    ensures DecayStep(row, x) == Plus(Scale(x.alpha, row), Scale(x.beta * x.v, x.k))
  {
    var got, want := DecayStep(row, x), Plus(Scale(x.alpha, row), Scale(x.beta * x.v, x.k));
    forall j | 0 <= j < |row| ensures got[j] == want[j] {
    }
  }

  lemma NothingErased(alpha: real, beta: real, k: real)
    ensures alpha * (beta * 0.0) * k == 0.0
  {
    assert alpha * (beta * 0.0) == 0.0;
  }

  lemma DecayIsDelta(row: Vec, x: Input)
    requires |x.k| == |row| && Dot(row, x.k) == 0.0
    ensures DecayStep(row, x) == DeltaStep(row, x)
  {
    hide Dot;
    var got, want := DecayStep(row, x), DeltaStep(row, x);
    forall j | 0 <= j < |row| ensures got[j] == want[j] {
      NothingErased(x.alpha, x.beta, x.k[j]);
    }
  }

  /** Without the erase term a token only adds; where the state holds nothing for the key, that is
      the delta rule. */
  lemma DecayReads(row: Vec, x: Input, u: Vec)
    requires |x.k| == |row| == |u|
    ensures Dot(DecayStep(row, x), u) == x.alpha * Dot(row, u) + x.beta * x.v * Dot(x.k, u)
    ensures Dot(row, x.k) == 0.0 ==> DecayStep(row, x) == DeltaStep(row, x)
  {
    hide Dot, DecayStep, DeltaStep, Scale, Plus;
    DecayEntries(row, x);
    if Dot(row, x.k) == 0.0 { DecayIsDelta(row, x); }
    DotPlus(Scale(x.alpha, row), Scale(x.beta * x.v, x.k), u);
    DotScale(x.alpha, row, u);
    DotScale(x.beta * x.v, x.k, u);
  }

  function DecayState(row: Vec, xs: seq<Input>): (r: Vec)
    requires Sized(xs, |row|)
    ensures |r| == |row|
  {
    if xs == [] then row else DecayStep(DecayState(row, xs[..|xs| - 1]), xs[|xs| - 1])
  }

  /** The kernel's recurrence: no decay, no gate. */
  function PlainStep(row: Vec, k: Vec, v: real): (r: Vec)
    requires |k| == |row|
    ensures |r| == |row|
  {
    seq(|row|, j requires 0 <= j < |row| => row[j] + v * k[j])
  }

  lemma PlainReads(row: Vec, k: Vec, v: real, u: Vec)
    requires |k| == |row| == |u|
    ensures Dot(PlainStep(row, k, v), u) == Dot(row, u) + v * Dot(k, u)
  {
    hide Dot;
    assert PlainStep(row, k, v) == Plus(row, Scale(v, k));
    DotPlus(row, Scale(v, k), u);
    DotScale(v, k, u);
  }

  function PlainState(row: Vec, xs: seq<Input>, vs: seq<real>): (r: Vec)
    requires Sized(xs, |row|) && |vs| == |xs|
    ensures |r| == |row|
  {
    if xs == [] then row
    else PlainStep(PlainState(row, xs[..|xs| - 1], vs[..|vs| - 1]), xs[|xs| - 1].k, vs[|vs| - 1])
  }

  const EPS: real := 0.000_000_000_000_000_000_000_000_000_001

  function ClampMin(x: real): real {
    if x < EPS then EPS else x
  }

  /** Cumulative decay of the first `t` tokens, as computed. */
  function Cumulative(xs: seq<Input>): real {
    if xs == [] then 1.0 else Cumulative(xs[..|xs| - 1]) * ClampMin(xs[|xs| - 1].alpha)
  }

  /** No clamp is active. */
  predicate NoClamp(xs: seq<Input>) {
    forall t :: 0 <= t < |xs| ==> NoClampAt(xs, t)
  }

  predicate NoClampAt(xs: seq<Input>, t: nat)
    requires t < |xs|
  {
    xs[t].alpha >= EPS && Cumulative(xs[..t + 1]) >= EPS
  }

  /** Values scaled for the decay-free kernel. */
  function ScaledValue(xs: seq<Input>, t: nat): real
    requires t < |xs|
  {
    (xs[t].beta * xs[t].v) / ClampMin(Cumulative(xs[..t + 1]))
  }

  lemma ScaleOne(a: Vec)
    ensures Scale(1.0, a) == a
  {
  }

  /** One step: the decayed state is the cumulative decay times the kernel's state. */
  lemma ScaledStep(a: real, u: Vec, x: Input, c: real, v: real)
    requires |x.k| == |u| && c > 0.0 && c == a * x.alpha && v == (x.beta * x.v) / c
    ensures DecayStep(Scale(a, u), x) == Scale(c, PlainStep(u, x.k, v))
  {
    var left := DecayStep(Scale(a, u), x);
    var right := Scale(c, PlainStep(u, x.k, v));
    forall j | 0 <= j < |u| ensures left[j] == right[j] { ScaledEntry(a, x.alpha, u[j], x.beta * x.v, x.k[j], c, v); }
  }

  lemma ScaledEntry(a: real, alpha: real, u: real, w: real, k: real, c: real, v: real)
    requires c > 0.0 && c == a * alpha && v == w / c
    ensures alpha * (a * u) + w * k == c * (u + v * k)
  {
    assert c * v == w;
    assert c * (v * k) == (c * v) * k;
    assert c * u == alpha * (a * u);
  }

  lemma NoClampPrefix(xs: seq<Input>, n: nat)
    requires NoClamp(xs) && n <= |xs|
    ensures NoClamp(xs[..n])
  {
    hide Cumulative;
    var part := xs[..n];
    forall t | 0 <= t < |part| ensures NoClampAt(part, t) {
      assert NoClampAt(xs, t) && part[..t + 1] == xs[..t + 1] && part[t] == xs[t];
    }
  }

  /** `vs` are the scaled values of `xs`. */
  predicate ScaledValues(xs: seq<Input>, vs: seq<real>) {
    |vs| == |xs| && forall t :: 0 <= t < |xs| ==> vs[t] == ScaledValue(xs, t)
  }

  lemma ScaledPrefix(xs: seq<Input>, vs: seq<real>, n: nat)
    requires ScaledValues(xs, vs) && n <= |xs|
    ensures ScaledValues(xs[..n], vs[..n])
  {
    hide Cumulative;
    forall t | 0 <= t < n ensures vs[..n][t] == ScaledValue(xs[..n], t) {
      assert xs[..n][..t + 1] == xs[..t + 1] && xs[..n][t] == xs[t];
    }
  }

  /** Without clamps the last cumulative decay is a plain product, and the last value is
      scaled by it. */
  lemma LastScaled(xs: seq<Input>, vs: seq<real>)
    requires xs != [] && NoClamp(xs) && ScaledValues(xs, vs)
    ensures |vs| == |xs|
    ensures
      var n := |xs| - 1;
      && Cumulative(xs) == Cumulative(xs[..n]) * xs[n].alpha && Cumulative(xs) > 0.0 && xs[n].alpha > 0.0
      && vs[n] == (xs[n].beta * xs[n].v) / Cumulative(xs)
  {
    hide Cumulative, NoClamp, ScaledValue;
    var n := |xs| - 1;
    LastProduct(xs);
    LastValue(xs[n].beta * xs[n].v, xs, vs[n]);
  }

  lemma LastProduct(xs: seq<Input>)
    requires xs != [] && NoClamp(xs)
    ensures Cumulative(xs) == Cumulative(xs[..|xs| - 1]) * xs[|xs| - 1].alpha
    ensures Cumulative(xs) >= EPS && xs[|xs| - 1].alpha >= EPS
  {
    hide Cumulative, ClampMin;
    var n := |xs| - 1;
    assert NoClampAt(xs, n) && xs[..n + 1] == xs;
    ClampIdle(xs[n].alpha);
    CumulativeLast(xs);
  }

  lemma ClampIdle(x: real)
    requires x >= EPS
    ensures ClampMin(x) == x
  {
  }

  lemma CumulativeLast(xs: seq<Input>)
    requires xs != []
    ensures Cumulative(xs) == Cumulative(xs[..|xs| - 1]) * ClampMin(xs[|xs| - 1].alpha)
  {
    hide ClampMin;
  }

  lemma LastValue(w: real, xs: seq<Input>, v: real)
    requires xs != [] && Cumulative(xs) >= EPS && w == xs[|xs| - 1].beta * xs[|xs| - 1].v && v == ScaledValue(xs, |xs| - 1)
    ensures v == w / Cumulative(xs)
  {
    hide Cumulative;
    assert xs[..|xs| - 1 + 1] == xs;
  }

  lemma {:induction false} Reparameterised(row: Vec, xs: seq<Input>, vs: seq<real>)
    requires Sized(xs, |row|) && NoClamp(xs) && ScaledValues(xs, vs)
    ensures Cumulative(xs) > 0.0
    ensures DecayState(row, xs) == Scale(Cumulative(xs), PlainState(row, xs, vs))
  {
    hide NoClamp, ScaledValues, ScaledValue, Scale, DecayStep, PlainStep, ClampMin;
    if xs == [] {
      ScaleOne(row);
      NothingScaled(vs, xs);
    } else {
      var n := |xs| - 1;
      ScaledLength(xs, vs);
      NoClampPrefix(xs, n);
      ScaledPrefix(xs, vs, n);
      Reparameterised(row, xs[..n], vs[..n]);
      LastScaled(xs, vs);
      var a, u := Cumulative(xs[..n]), PlainState(row, xs[..n], vs[..n]);
      ScaledStep(a, u, xs[n], Cumulative(xs), vs[n]);
      assert DecayState(row, xs) == DecayStep(DecayState(row, xs[..n]), xs[n]);
      assert PlainState(row, xs, vs) == PlainStep(u, xs[n].k, vs[n]);
    }
  }

  lemma NothingScaled(vs: seq<real>, xs: seq<Input>)
    requires ScaledValues(xs, vs) && xs == []
    ensures vs == []
  {
  }

  lemma ScaledLength(xs: seq<Input>, vs: seq<real>)
    requires ScaledValues(xs, vs)
    ensures |vs| == |xs|
  {
  }

  /** The whole path: scale the values, run the decay-free kernel from the carried state,
      rescale outputs and final state. */
  method DecayViaPlain(row: Vec, xs: seq<Input>) returns (outs: seq<real>, state: Vec)
    requires Sized(xs, |row|) && |xs| > 1
    ensures NoClamp(xs) ==> state == DecayState(row, xs)
    ensures |outs| == |xs|
    ensures NoClamp(xs) ==> forall t :: 0 <= t < |xs| ==> outs[t] == Dot(DecayState(row, xs[..t + 1]), xs[t].q)
  {
    hide NoClamp, ScaledValue, Scale, DecayStep, PlainStep, ClampMin, Dot, Cumulative, DecayState, Rescaled;
    var vs := seq(|xs|, t requires 0 <= t < |xs| => ScaledValue(xs, t));
    var u: Vec := row;
    outs := [];
    for t := 0 to |xs|
      invariant |u| == |row| && u == PlainState(row, xs[..t], vs[..t]) && |outs| == t
      invariant forall s :: 0 <= s < t ==> outs[s] == PlainOut(row, xs, vs, s)
    {
      assert xs[..t + 1][..t] == xs[..t] && vs[..t + 1][..t] == vs[..t];
      u := PlainStep(u, xs[t].k, vs[t]);
      outs := outs + [Rescaled(Dot(u, xs[t].q), Cumulative(xs[..t + 1]))];
    }
    assert xs[..|xs|] == xs && vs[..|xs|] == vs;
    state := Scale(Cumulative(xs), u);
    if NoClamp(xs) {
      Reparameterised(row, xs, vs);
      forall t | 0 <= t < |xs| ensures outs[t] == Dot(DecayState(row, xs[..t + 1]), xs[t].q) {
        PrefixReparameterised(row, xs, vs, t);
      }
    }
  }

  /** The kernel's readout at token `t`, rescaled. */
  function PlainOut(row: Vec, xs: seq<Input>, vs: seq<real>, t: nat): real
    requires Sized(xs, |row|) && |vs| == |xs| && t < |xs|
  {
    Rescaled(Dot(PlainState(row, xs[..t + 1], vs[..t + 1]), xs[t].q), Cumulative(xs[..t + 1]))
  }

  function Rescaled(out: real, a: real): real {
    out * a
  }

  lemma PrefixReparameterised(row: Vec, xs: seq<Input>, vs: seq<real>, t: nat)
    requires Sized(xs, |row|) && NoClamp(xs) && ScaledValues(xs, vs) && |vs| == |xs| && t < |xs|
    ensures Dot(DecayState(row, xs[..t + 1]), xs[t].q) == PlainOut(row, xs, vs, t)
  {
    hide NoClamp, ScaledValues, ScaledValue, Scale, Dot, DecayState, PlainState, Cumulative, Rescaled, PlainOut;
    NoClampPrefix(xs, t + 1);
    ScaledPrefix(xs, vs, t + 1);
    PlainOutIs(row, xs, vs, t);
    PartReparameterised(row, xs[..t + 1], vs[..t + 1], xs[t].q);
  }

  lemma PlainOutIs(row: Vec, xs: seq<Input>, vs: seq<real>, t: nat)
    requires Sized(xs, |row|) && |vs| == |xs| && t < |xs|
    ensures PlainOut(row, xs, vs, t)
         == Rescaled(Dot(PlainState(row, xs[..t + 1], vs[..t + 1]), xs[t].q), Cumulative(xs[..t + 1]))
  {
  }

  lemma PartReparameterised(row: Vec, part: seq<Input>, vals: seq<real>, q: Vec)
    requires Sized(part, |row|) && NoClamp(part) && |vals| == |part| && ScaledValues(part, vals) && |q| == |row|
    ensures Dot(DecayState(row, part), q) == Rescaled(Dot(PlainState(row, part, vals), q), Cumulative(part))
  {
    hide Sized, NoClamp, ScaledValues, ScaledValue, Scale, Dot, DecayState, PlainState, Cumulative, Rescaled;
    Reparameterised(row, part, vals);
    ReadScaled(DecayState(row, part), PlainState(row, part, vals), Cumulative(part), q);
  }

  lemma ReadScaled(d: Vec, p: Vec, c: real, q: Vec)
    requires d == Scale(c, p) && |q| == |p|
    ensures Dot(d, q) == Rescaled(Dot(p, q), c)
  {
    DotScale(c, p, q);
  }
}
