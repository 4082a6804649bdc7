/**
 * The fixed-capacity sample window (include/RingBuffer.h). The backing
 * vector grows until it holds N samples; after that each push overwrites
 * the oldest one, at `head`, and advances `head` cyclically. The window
 * read in chronological order is therefore buffer[head..] + buffer[..head],
 * and it always equals the last N samples pushed since the last clear.
 */
module Ring {
  import Stats

  /** The last n elements of s (all of s when it is shorter). */
  function LastN(s: seq<real>, n: nat): (r: seq<real>)
    ensures |r| == if |s| <= n then |s| else n
    ensures r == s[|s| - |r|..]
  {
    if |s| <= n then s else s[|s| - n..]
  }

  /** Appending one sample drops the oldest once n samples are held. */
  lemma LastNSnoc(s: seq<real>, v: real, n: nat)
    requires n > 0
    ensures |s| < n ==> LastN(s + [v], n) == s + [v]
    ensures |s| >= n ==> LastN(s + [v], n) == LastN(s, n)[1..] + [v]
  {
    if |s| >= n {
      var t := s + [v];
      assert t[|t| - n..] == s[|s| - n + 1..] + [v];
    }
  }

  /** The window of the last n samples is the same whether trimmed before or after a push. */
  lemma {:induction false} LastNIdempotent(s: seq<real>, v: real, n: nat)
    requires n > 0
    ensures LastN(LastN(s, n) + [v], n) == LastN(s + [v], n)
  {
    LastNSnoc(s, v, n);
    LastNSnoc(LastN(s, n), v, n);
  }

  /** Advancing an index below n cyclically. */
  lemma NextIndex(h: nat, n: nat)
    requires h < n
    ensures (h + 1) % n == if h + 1 == n then 0 else h + 1
  {
  }

  /** Overwriting the oldest element of a full rotation and advancing drops it and appends v. */
  lemma OverwriteOldest(b: seq<real>, h: nat, v: real)
    requires h < |b|
    ensures var b', h' := b[h := v], (h + 1) % |b|;
      b'[h'..] + b'[..h'] == (b[h..] + b[..h])[1..] + [v]
  {
    var b', h' := b[h := v], (h + 1) % |b|;
    NextIndex(h, |b|);
    assert (b[h..] + b[..h])[1..] == b[h + 1..] + b[..h];
    if h + 1 == |b| {
      assert h' == 0;
      assert b' == b[..h] + [v];
    } else {
      assert h' == h + 1;
      assert b'[h'..] == b[h + 1..];
      assert b'[..h'] == b[..h] + [v];
    }
  }

  /** The storage b read from the oldest element, at h, onwards. */
  function Rotation(b: seq<real>, h: nat): seq<real>
    requires h <= |b|
  {
    b[h..] + b[..h]
  }

  /** The representation invariant of a window of capacity n that has seen `pushes`. */
  ghost predicate Inv(n: nat, b: seq<real>, h: nat, size: nat, pushes: seq<real>) {
    && n > 0
    && size == |b| <= n
    && h < n
    && (size < n ==> h == 0)
    && h <= |b|
    && Rotation(b, h) == LastN(pushes, n)
  }

  /** One `push` step keeps the invariant. */
  lemma PushStep(n: nat, b: seq<real>, h: nat, size: nat, pushes: seq<real>, v: real)
    requires Inv(n, b, h, size, pushes)
    ensures size < n ==> Inv(n, b + [v], h, size + 1, pushes + [v])
    ensures size == n ==> Inv(n, b[h := v], (h + 1) % n, size, pushes + [v])
    ensures size < n ==> Rotation(b + [v], h) == Rotation(b, h) + [v]
    ensures size == n ==> Rotation(b[h := v], (h + 1) % n) == Rotation(b, h)[1..] + [v]
  {
    LastNSnoc(pushes, v, n);
    if size < n {
      assert Rotation(b, h) == b;
      assert Rotation(b + [v], h) == b + [v];
    } else {
      OverwriteOldest(b, h, v);
    }
  }

  class RingBuffer {
    /** The capacity N. */
    const cap: nat
    /** The backing vector `buffer_`. */
    var buffer: seq<real>
    var head: nat
    var size: nat
    /** Every sample pushed since construction or the last clear, oldest first. */
    ghost var Pushes: seq<real>

    /** The held samples, oldest first. */
    ghost function Window(): seq<real>
      reads this
      requires head <= |buffer|
    {
      Rotation(buffer, head)
    }

    ghost predicate Valid()
      reads this
    {
      Inv(cap, buffer, head, size, Pushes)
    }

    constructor (n: nat)
      requires n > 0
      ensures Valid()
      ensures cap == n && buffer == [] && head == 0 && size == 0 && Pushes == []
    {
      cap := n;
      buffer := [];
      head := 0;
      size := 0;
      Pushes := [];
    }

    /** `push`: append while there is room, otherwise overwrite the oldest sample. */
    method Push(v: real)
      requires Valid()
      modifies this
      ensures Valid()
      ensures Pushes == old(Pushes) + [v]
      ensures Window() == LastN(old(Window()) + [v], cap)
      ensures old(size) < cap ==>
        buffer == old(buffer) + [v] && size == old(size) + 1 && head == old(head)
      ensures old(size) == cap ==>
        buffer == old(buffer)[old(head) := v] && size == cap && head == (old(head) + 1) % cap
    {
      ghost var w := Window();
      PushStep(cap, buffer, head, size, Pushes, v);
      LastNIdempotent(Pushes, v, cap);
      assert LastN(w + [v], cap) == LastN(Pushes + [v], cap);
      if size < cap {
        buffer := buffer + [v];
        size := size + 1;
      } else {
        buffer := buffer[head := v];
        head := (head + 1) % cap;
      }
      Pushes := Pushes + [v];
      assert Window() == LastN(Pushes, cap);
    }

    /** `clear`: drop every sample. */
    method Clear()
      requires Valid()
      modifies this
      ensures Valid()
      ensures buffer == [] && head == 0 && size == 0 && Pushes == []
    {
      buffer := [];
      head := 0;
      size := 0;
      Pushes := [];
    }

    /** `size()`: how many of the pushed samples are held. */
    function Size(): (n: nat)
      reads this
      requires Valid()
      ensures n == |Window()|
      ensures n == if |Pushes| <= cap then |Pushes| else cap
    {
      size
    }

    /** `empty()`: nothing was pushed since the last clear. */
    function Empty(): (b: bool)
      reads this
      requires Valid()
      ensures b <==> Pushes == []
    {
      size == 0
    }

    /** `full()`: at least N samples were pushed since the last clear. */
    function Full(): (b: bool)
      reads this
      requires Valid()
      ensures b <==> |Pushes| >= cap
    {
      size == cap
    }

    /**
     * `data()`: the backing vector, which holds the window's samples in
     * storage order; before the first overwrite that is chronological order.
     */
    function Data(): (r: seq<real>)
      reads this
      requires Valid()
      ensures multiset(r) == multiset(Window())
      ensures |Pushes| < cap ==> r == Pushes
    {
      WindowPermutation();
      buffer
    }

    lemma WindowPermutation()
      requires head <= |buffer|
      ensures multiset(buffer) == multiset(Window())
    {
      assert buffer == buffer[..head] + buffer[head..];
    }

    /** `min()`: the smallest of the last N samples, 0 when empty. */
    function Min(): (r: real)
      reads this
      requires Valid()
      ensures r == Stats.Min(Window())
    {
      WindowPermutation();
      Stats.StatsPermutation(buffer, Window(), 0, 1);
      Stats.Min(buffer)
    }

    /** `max()`: the largest of the last N samples, 0 when empty. */
    function Max(): (r: real)
      reads this
      requires Valid()
      ensures r == Stats.Max(Window())
    {
      WindowPermutation();
      Stats.StatsPermutation(buffer, Window(), 0, 1);
      Stats.Max(buffer)
    }

    /** `average()`: the mean of the last N samples, 0 when empty. */
    function Average(): (r: real)
      reads this
      requires Valid()
      ensures r == Stats.Average(Window())
    {
      WindowPermutation();
      Stats.StatsPermutation(buffer, Window(), 0, 1);
      Stats.Average(buffer)
    }

    /** `percentile(p)` for p = num/den over the last N samples, 0 when empty. */
    function Percentile(num: int, den: int): (r: real)
      reads this
      requires Valid() && den > 0
      ensures r == Stats.Percentile(Window(), num, den)
    {
      WindowPermutation();
      Stats.StatsPermutation(buffer, Window(), num, den);
      Stats.Percentile(buffer, num, den)
    }
  }
}
