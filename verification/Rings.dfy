/** Circular buffers as values: the live window of a backing store, and what one push or pop does to it. */
module Rings {
  import opened Numbers

  /** The `count` entries from `head` on, wrapping past the end of the store. */
  function Window<T>(s: seq<T>, head: nat, count: nat): (w: seq<T>)
    requires count <= |s| && (head < |s| || |s| == 0 == head)
    ensures |w| == count
  {
    if head + count <= |s| then s[head..head + count] else s[head..] + s[..head + count - |s|]
  }

  lemma ModWrap(x: nat, n: nat)
    requires x < 2 * n
    ensures x % n == if x < n then x else x - n
  {
    if x >= n {
      assert x == n * (x / n) + x % n;
      QuotientOrder(n, x / n, 1);
      QuotientOrder(n, 1, x / n);
    }
  }

  lemma QuotientOrder(n: nat, p: int, q: int)
    requires n * p < n * q + n
    ensures p <= q
  {
    if p > q { ScaleUp(q + 1, p, n); }
  }

  lemma WindowAt<T>(s: seq<T>, head: nat, count: nat, i: nat)
    requires i < count <= |s| && head < |s|
    ensures Window(s, head, count)[i] == s[(head + i) % |s|]
  {
    ModWrap(head + i, |s|);
  }

  lemma WindowFromStart<T>(s: seq<T>, count: nat)
    requires count <= |s|
    ensures Window(s, 0, count) == s[..count]
  {
  }

  lemma WindowPop<T>(s: seq<T>, head: nat, count: nat)
    requires 0 < count <= |s| && head < |s|
    ensures (head + 1) % |s| < |s|
    ensures Window(s, head, count) == [s[head]] + Window(s, (head + 1) % |s|, count - 1)
  {
    hide Window;
    ModWrap(head + 1, |s|);
    WindowTail(s, head, count, (head + 1) % |s|);
  }

  lemma WindowTail<T>(s: seq<T>, head: nat, count: nat, next: nat)
    requires 0 < count <= |s| && head < |s| && next == if head + 1 < |s| then head + 1 else 0
    ensures Window(s, head, count) == [s[head]] + Window(s, next, count - 1)
  {
    if head + count <= |s| {
      Uncons(s, head, head + count);
      if next == 0 { assert s[0..0] == s[head + 1..head + count]; }
    } else {
      Uncons(s, head, |s|);
      var x, tail, rest := s[head], s[head + 1..|s|], s[..head + count - |s|];
      assert s[head..] == s[head..|s|] && s[head + 1..] == tail;
      assert ([x] + tail) + rest == [x] + (tail + rest);
      if next == 0 { assert tail == [] && tail + rest == rest == s[0..count - 1]; }
    }
  }

  lemma Uncons<T>(s: seq<T>, i: nat, j: nat)
    requires i < j <= |s|
    ensures s[i..j] == [s[i]] + s[i + 1..j]
  {
  }

  lemma WindowPush<T>(s: seq<T>, head: nat, count: nat, x: T)
    requires count < |s| && head < |s|
    ensures (head + count) % |s| < |s|
    ensures Window(s[(head + count) % |s| := x], head, count + 1) == Window(s, head, count) + [x]
  {
    hide Window;
    ModWrap(head + count, |s|);
    WindowStore(s, head, count, x, (head + count) % |s|);
  }

  lemma WindowStore<T>(s: seq<T>, head: nat, count: nat, x: T, idx: nat)
    requires count < |s| && head < |s| && idx == if head + count < |s| then head + count else head + count - |s|
    ensures Window(s[idx := x], head, count + 1) == Window(s, head, count) + [x]
  {
    var t := s[idx := x];
    if head + count < |s| {
      assert t[head..idx + 1] == s[head..idx] + [x];
    } else {
      assert t[head..] == s[head..];
      assert t[..idx + 1] == s[..idx] + [x];
    }
  }
}
