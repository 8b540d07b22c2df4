/** Small facts and operations on strings used to take a rendered line
    apart from its end. */
module Text {
  import opened Wrappers

  lemma Assoc(a: string, b: string, c: string)
    ensures a + b + c == a + (b + c)
  {
  }

  /** `s` without the given suffix, or None when `s` does not end with it. */
  function StripSuffix(s: string, suffix: string): (r: Option<string>)
    ensures r.Some? <==> |suffix| <= |s| && s[|s| - |suffix|..] == suffix
    ensures r.Some? ==> r.value + suffix == s
  {
    if |suffix| <= |s| && s[|s| - |suffix|..] == suffix then Some(s[..|s| - |suffix|]) else None
  }

  lemma StripSuffixAppend(s: string, suffix: string)
    ensures StripSuffix(s + suffix, suffix) == Some(s)
  {
  }

  /** Splits `s` after its last `c`: the second part is the longest suffix
      of `s` without `c`, the first part is empty or ends with `c`. */
  function SplitAfterLast(s: string, c: char): (p: (string, string))
    ensures p.0 + p.1 == s
    ensures c !in p.1
    ensures p.0 == [] || p.0[|p.0| - 1] == c
    decreases |s|
  {
    if s == [] || s[|s| - 1] == c then (s, [])
    else
      var (init, tail) := SplitAfterLast(s[..|s| - 1], c);
      (init, tail + [s[|s| - 1]])
  }

  /** The split is the only one with those properties: a head ending with
      `c` followed by a tail free of `c` is split back into those two. */
  lemma {:induction false} SplitAfterLastAppend(head: string, tail: string, c: char)
    requires |head| > 0 && head[|head| - 1] == c
    requires c !in tail
    ensures SplitAfterLast(head + tail, c) == (head, tail)
    decreases |tail|
  {
    var s := head + tail;
    if tail == [] {
      assert s == head;
    } else {
      var init := tail[..|tail| - 1];
      assert s[..|s| - 1] == head + init;
      SplitAfterLastAppend(head, init, c);
      assert init + [tail[|tail| - 1]] == tail;
    }
  }
}
