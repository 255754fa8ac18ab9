/** The small part of Python's string and path library that the scripts rely on:
    `t in s`, `s.split(c)`, `s.replace(c, '')` and `os.path.join(a, b)` on POSIX. */
module PyText {

  /** Python's `t in s` for strings: `t` occurs in `s` as a contiguous substring. */
  predicate Contains(s: string, t: string)
    decreases |s|
  {
    t <= s || (|s| > 0 && Contains(s[1..], t))
  }

  /** Every string contains the empty string. */
  lemma ContainsEmpty(s: string)
    ensures Contains(s, "")
  {
  }

  /** `t` is the slice of `s` that starts at position `i`. */
  predicate OccursAt(s: string, t: string, i: int)
  {
    0 <= i && i + |t| <= |s| && s[i..i + |t|] == t
  }

  /** `Contains` agrees with the textbook definition: `t` is the slice of `s` at
      some position. */
  lemma {:induction false} ContainsIffOccurs(s: string, t: string)
    ensures Contains(s, t) <==> exists i :: OccursAt(s, t, i)
    decreases |s|
  {
    if t <= s {
      assert OccursAt(s, t, 0);
    } else if |s| > 0 {
      ContainsIffOccurs(s[1..], t);
      if exists i :: OccursAt(s[1..], t, i) {
        var i :| OccursAt(s[1..], t, i);
        assert s[i + 1..i + 1 + |t|] == s[1..][i..i + |t|];
        assert OccursAt(s, t, i + 1);
      }
      if exists i :: OccursAt(s, t, i) {
        var i :| OccursAt(s, t, i);
        if i > 0 {
          assert s[1..][i - 1..i - 1 + |t|] == s[i..i + |t|];
          assert OccursAt(s[1..], t, i - 1);
        }
      }
    }
  }

  /** A substring occurs in any longer string that ends with the shorter one. */
  lemma {:induction false} ContainsInSuffix(s: string, k: nat, t: string)
    requires k <= |s| && Contains(s[k..], t)
    ensures Contains(s, t)
    decreases k
  {
    if k > 0 {
      assert s[1..][k - 1..] == s[k..];
      ContainsInSuffix(s[1..], k - 1, t);
    }
  }

  /** Every character of a substring is a character of the string. */
  lemma {:induction false} ContainsChar(s: string, t: string, c: char)
    requires Contains(s, t) && c in t
    ensures c in s
    decreases |s|
  {
    if t <= s {
      var i :| 0 <= i < |t| && t[i] == c;
      assert s[i] == c;
    } else {
      ContainsChar(s[1..], t, c);
    }
  }

  /** Python's `s.split(c)` with an explicit separator: one piece more than there
      are occurrences of `c`, the empty string giving `[""]`. */
  function Split(s: string, c: char): (pieces: seq<string>)
    ensures |pieces| >= 1
    ensures forall k :: 0 <= k < |pieces| ==> c !in pieces[k]
    ensures forall k, x :: 0 <= k < |pieces| && x in pieces[k] ==> x in s
    ensures c in s ==> |pieces| >= 2
    decreases |s|
  {
    if |s| == 0 then [""]
    else
      var rest := Split(s[1..], c);
      assert forall x :: x in s[1..] ==> x in s;
      if s[0] == c then [""] + rest
      else [[s[0]] + rest[0]] + rest[1..]
  }

  /** Python's `c.join(pieces)`: the pieces with one `c` between neighbours. */
  function Join(pieces: seq<string>, c: char): string
    requires |pieces| >= 1
  {
    if |pieces| == 1 then pieces[0] else pieces[0] + [c] + Join(pieces[1..], c)
  }

  /** Splitting loses nothing: joining the pieces again gives back the string. */
  lemma {:induction false} JoinSplit(s: string, c: char)
    ensures Join(Split(s, c), c) == s
    decreases |s|
  {
    if |s| > 0 {
      JoinSplit(s[1..], c);
      var rest := Split(s[1..], c);
      if s[0] != c && |rest| > 1 {
        assert Join(Split(s, c), c) == [s[0]] + rest[0] + [c] + Join(rest[1..], c);
        assert Join(rest, c) == rest[0] + [c] + Join(rest[1..], c);
      }
      assert s == [s[0]] + s[1..];
    }
  }

  /** A separator-free head, followed by the separator, is exactly the first piece. */
  lemma {:induction false} SplitAtFirst(head: string, c: char, tail: string)
    requires c !in head
    ensures Split(head + [c] + tail, c) == [head] + Split(tail, c)
    decreases |head|
  {
    if |head| == 0 {
      assert head + [c] + tail == [c] + tail;
      assert ([c] + tail)[1..] == tail;
    } else {
      SplitAtFirst(head[1..], c, tail);
      assert (head + [c] + tail)[1..] == head[1..] + [c] + tail;
      assert [head[0]] + head[1..] == head;
    }
  }

  /** A separator-free string followed by nothing or by the separator is the first piece. */
  lemma {:induction false} SplitFirstPiece(head: string, c: char, tail: string)
    requires c !in head
    requires tail == [] || tail[0] == c
    ensures Split(head + tail, c)[0] == head
    decreases |head|
  {
    if |head| == 0 {
      assert head + tail == tail;
    } else {
      SplitFirstPiece(head[1..], c, tail);
      assert (head + tail)[1..] == head[1..] + tail;
      assert [head[0]] + head[1..] == head;
    }
  }

  /** A separator-free prefix of a string is a prefix of its first piece. */
  lemma {:induction false} PrefixInFirstPiece(s: string, t: string, c: char)
    requires t <= s && c !in t
    ensures t <= Split(s, c)[0]
    decreases |s|
  {
    if |t| > 0 {
      assert s[0] == t[0];
      PrefixInFirstPiece(s[1..], t[1..], c);
    }
  }

  /** If a separator-free text occurs in a string, it occurs inside one piece of its split. */
  lemma {:induction false} SomePieceContains(s: string, t: string, c: char)
    requires Contains(s, t) && c !in t
    ensures exists k :: 0 <= k < |Split(s, c)| && Contains(Split(s, c)[k], t)
    decreases |s|
  {
    var pieces := Split(s, c);
    if t <= s {
      PrefixInFirstPiece(s, t, c);
      assert Contains(pieces[0], t);
    } else {
      SomePieceContains(s[1..], t, c);
      var rest := Split(s[1..], c);
      var k :| 0 <= k < |rest| && Contains(rest[k], t);
      if s[0] == c {
        assert pieces[k + 1] == rest[k];
      } else if k == 0 {
        assert pieces[0][1..] == rest[0];
        ContainsInSuffix(pieces[0], 1, t);
      } else {
        assert pieces[k] == rest[k];
      }
    }
  }

  /** Python's `s.replace(c, '')` for a one-character `c`: every `c` dropped, the
      other characters kept in order. */
  function RemoveAll(s: string, c: char): (r: string)
    ensures c !in r
    ensures forall x :: x != c ==> (x in r <==> x in s)
    ensures |r| <= |s|
    ensures c !in s ==> r == s
    decreases |s|
  {
    if |s| == 0 then ""
    else if s[0] == c then RemoveAll(s[1..], c)
    else [s[0]] + RemoveAll(s[1..], c)
  }

  /** Exactly the occurrences of `c` go: every other character keeps its count,
      and the length drops by the number of `c`s. */
  lemma {:induction false} RemoveAllCounts(s: string, c: char)
    ensures multiset(RemoveAll(s, c)) == multiset(s)[c := 0]
    ensures |RemoveAll(s, c)| == |s| - multiset(s)[c]
    decreases |s|
  {
    if |s| > 0 {
      assert s == [s[0]] + s[1..];
      RemoveAllCounts(s[1..], c);
    }
  }

  /** Removing a character works piece by piece, so the kept characters stay in
      their order: `(a + b).replace(c, '') == a.replace(c, '') + b.replace(c, '')`. */
  lemma {:induction false} RemoveAllAppend(a: string, b: string, c: char)
    ensures RemoveAll(a + b, c) == RemoveAll(a, c) + RemoveAll(b, c)
    decreases |a|
  {
    if |a| == 0 {
      assert a + b == b;
    } else {
      var ab := a + b;
      assert ab[0] == a[0] && ab[1..] == a[1..] + b;
      RemoveAllAppend(a[1..], b, c);
      var tail := RemoveAll(a[1..], c) + RemoveAll(b, c);
      if a[0] == c {
        assert RemoveAll(ab, c) == tail;
      } else {
        assert RemoveAll(ab, c) == [a[0]] + tail;
        assert RemoveAll(a, c) == [a[0]] + RemoveAll(a[1..], c);
      }
    }
  }

  /** `os.path.join(a, b)` on POSIX: an absolute `b` replaces `a`; otherwise `b` is
      appended to `a`, with a `/` inserted unless `a` is empty or already ends in one. */
  function PathJoin(a: string, b: string): string
  {
    if |b| > 0 && b[0] == '/' then b
    else if |a| == 0 || a[|a| - 1] == '/' then a + b
    else a + "/" + b
  }

  /** The joined path ends with `b`; a relative `b` keeps the directory `a` in front,
      with at most one `/` between them, and exactly one when `a` does not end in one. */
  lemma PathJoinParts(a: string, b: string)
    ensures var r := PathJoin(a, b);
      && |b| <= |r| && r[|r| - |b|..] == b
      && (|b| > 0 && b[0] == '/' ==> r == b)
      && (!(|b| > 0 && b[0] == '/') ==> a <= r && |a| + |b| <= |r| <= |a| + |b| + 1)
      && (!(|b| > 0 && b[0] == '/') && (|a| == 0 || a[|a| - 1] == '/') ==> |r| == |a| + |b|)
      && (!(|b| > 0 && b[0] == '/') && |a| > 0 && a[|a| - 1] != '/' ==>
            |r| == |a| + |b| + 1 && r[|a|] == '/')
  {
  }
}
