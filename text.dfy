/** String helpers with Python's semantics: `sep.join(parts)`, `s.split(sep)` and `sub in s`. */
module Text {

  /** `sep.join(parts)`: the parts in order, with `sep` between neighbours. */
  function JoinWith(sep: string, parts: seq<string>): string {
    if parts == [] then ""
    else if |parts| == 1 then parts[0]
    else parts[0] + sep + JoinWith(sep, parts[1..])
  }

  /** `s.split(sep)` for a one-character separator: never empty, one more piece than separators. */
  function Split(s: string, sep: char): (r: seq<string>)
    ensures |r| >= 1
    ensures forall i :: 0 <= i < |r| ==> sep !in r[i]
    decreases |s|
  {
    if s == [] then [""]
    else if s[0] == sep then [""] + Split(s[1..], sep)
    else
      var rest := Split(s[1..], sep);
      [[s[0]] + rest[0]] + rest[1..]
  }

  /** `sub in s`: `sub` occurs somewhere in `s` as a contiguous block. */
  predicate Contains(s: string, sub: string)
    decreases |s|
  {
    if |s| < |sub| then false
    else if sub <= s then true
    else Contains(s[1..], sub)
  }

  /** A string free of the separator comes back from `split` as the only piece. */
  lemma {:induction false} SplitWithoutSeparator(s: string, sep: char)
    requires sep !in s
    ensures Split(s, sep) == [s]
    decreases |s|
  {
    if s != [] {
      SplitWithoutSeparator(s[1..], sep);
      assert [s[0]] + s[1..] == s;
    }
  }

  /** Splitting at the first separator yields the text before it, then the split of the rest. */
  lemma {:induction false} SplitAtFirst(a: string, sep: char, b: string)
    requires sep !in a
    ensures Split(a + [sep] + b, sep) == [a] + Split(b, sep)
    decreases |a|
  {
    if a == [] {
      assert a + [sep] + b == [sep] + b;
      assert ([sep] + b)[1..] == b;
    } else {
      var s := a + [sep] + b;
      assert s[0] == a[0] && s[1..] == a[1..] + [sep] + b;
      SplitAtFirst(a[1..], sep, b);
      assert [a[0]] + a[1..] == a;
    }
  }

  /** `sep.join` and `split(sep)` are inverse whenever no part contains the separator. */
  lemma {:induction false} SplitJoin(parts: seq<string>, sep: char)
    requires |parts| >= 1
    requires forall i :: 0 <= i < |parts| ==> sep !in parts[i]
    ensures Split(JoinWith([sep], parts), sep) == parts
    decreases |parts|
  {
    if |parts| == 1 {
      SplitWithoutSeparator(parts[0], sep);
    } else {
      SplitJoin(parts[1..], sep);
      SplitAtFirst(parts[0], sep, JoinWith([sep], parts[1..]));
      assert [parts[0]] + parts[1..] == parts;
    }
  }

  /** A string contains every block of itself: `sub in a + sub + b`. */
  lemma {:induction false} ContainsMiddle(a: string, sub: string, b: string)
    ensures Contains(a + sub + b, sub)
    decreases |a|
  {
    var s := a + sub + b;
    if a == [] {
      assert s == sub + b;
      assert sub <= s;
    } else if !(sub <= s) {
      assert s[1..] == a[1..] + sub + b;
      ContainsMiddle(a[1..], sub, b);
    }
  }

  /** Joining at least two parts puts the separator into the result. */
  lemma JoinContainsSeparator(sep: string, parts: seq<string>)
    requires |parts| >= 2
    ensures Contains(JoinWith(sep, parts), sep)
  {
    assert JoinWith(sep, parts) == parts[0] + sep + JoinWith(sep, parts[1..]);
    ContainsMiddle(parts[0], sep, JoinWith(sep, parts[1..]));
  }

  /** A block of a block of `s` is a block of `s`. */
  lemma {:induction false} ContainsWithin(s: string, mid: string, sub: string)
    requires Contains(s, mid) && sub <= mid
    ensures Contains(s, sub)
    decreases |s|
  {
    if !(mid <= s) {
      ContainsWithin(s[1..], mid, sub);
    }
  }
}
