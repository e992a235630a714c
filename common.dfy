/** Datatypes and string operations shared by the modules of the model.
    The string operations are the few Python and JavaScript built-ins that the
    system relies on: `s.split(c)[0]`, `s.split(c)[-1]`, `p in s`,
    `s.replace(a, b)` and `sep.join(parts)`. */
module Common {

  datatype Option<T> = None | Some(value: T)

  datatype Result<T, E> = Ok(value: T) | Err(error: E)

  /** `s.split(sep)[0]`: the text before the first `sep`, or all of `s`. */
  function BeforeFirst(s: string, sep: char): (r: string)
    ensures |r| <= |s| && r == s[..|r|]
    ensures sep !in r
    ensures |r| < |s| ==> s[|r|] == sep
    ensures sep !in s ==> r == s
  {
    if s == [] || s[0] == sep then [] else [s[0]] + BeforeFirst(s[1..], sep)
  }

  /** `s.split(sep)[-1]`: the text after the last `sep`, or all of `s`. */
  function AfterLast(s: string, sep: char): (r: string)
    ensures |r| <= |s| && r == s[|s| - |r|..]
    ensures sep !in r
    ensures |r| < |s| ==> s[|s| - |r| - 1] == sep
    ensures sep !in s ==> r == s
  {
    if s == [] || s[|s| - 1] == sep then [] else AfterLast(s[..|s| - 1], sep) + [s[|s| - 1]]
  }

  /** `p` occurs in `s` starting at index `i`. */
  predicate OccursAt(p: string, s: string, i: int)
  {
    0 <= i && i + |p| <= |s| && s[i..i + |p|] == p
  }

  /** Python's `p in s` for strings. */
  predicate Occurs(p: string, s: string)
  {
    exists i | 0 <= i <= |s| - |p| :: OccursAt(p, s, i)
  }

  /** Python's `s.replace(key, repl)` for a non-empty `key`: every occurrence
      of `key`, found left to right without overlap, is replaced by `repl`. */
  function ReplaceAll(s: string, key: string, repl: string): string
    requires key != []
    decreases |s|
  {
    if |s| < |key| then s
    else if s[..|key|] == key then repl + ReplaceAll(s[|key|..], key, repl)
    else [s[0]] + ReplaceAll(s[1..], key, repl)
  }

  /** Python's `sep.join(parts)` and JavaScript's `parts.join(sep)`. */
  function Join(parts: seq<string>, sep: string): string
  {
    if |parts| == 0 then "" else if |parts| == 1 then parts[0] else parts[0] + sep + Join(parts[1..], sep)
  }

  /** Python's `s.split(sep)` for a one-character separator: the pieces
      between separators, always at least one. */
  function Split(s: string, sep: char): (r: seq<string>)
    ensures |r| >= 1 && r[0] == BeforeFirst(s, sep)
    ensures forall i :: 0 <= i < |r| ==> sep !in r[i]
    decreases |s|
  {
    var head := BeforeFirst(s, sep);
    if |head| == |s| then [s] else [head] + Split(s[|head| + 1..], sep)
  }

  /** The text before the first separator of `a + [sep] + b` is `a` when
      `a` has no separator. */
  lemma {:induction false} BeforeFirstAppend(a: string, sep: char, b: string)
    requires sep !in a
    ensures BeforeFirst(a + [sep] + b, sep) == a
  {
    if a != [] {
      assert (a + [sep] + b)[1..] == a[1..] + [sep] + b;
      BeforeFirstAppend(a[1..], sep, b);
    }
  }

  /** Splitting undoes joining with a separator no part contains. */
  lemma {:induction false} SplitJoin(parts: seq<string>, sep: char)
    requires parts != []
    requires forall i :: 0 <= i < |parts| ==> sep !in parts[i]
    ensures Split(Join(parts, [sep]), sep) == parts
  {
    if |parts| > 1 {
      TailFree(parts, sep);
      SplitJoin(parts[1..], sep);
      SplitJoinStep(parts, sep);
    } else {
      SplitJoinOne(parts, sep);
    }
  }

  lemma TailFree(parts: seq<string>, sep: char)
    requires parts != []
    requires forall i :: 0 <= i < |parts| ==> sep !in parts[i]
    ensures forall i :: 0 <= i < |parts[1..]| ==> sep !in parts[1..][i]
  {
    forall i | 0 <= i < |parts[1..]|
      ensures sep !in parts[1..][i]
    {
      assert parts[1..][i] == parts[i + 1];
    }
  }

  lemma SplitJoinStep(parts: seq<string>, sep: char)
    requires |parts| > 1 && sep !in parts[0]
    requires Split(Join(parts[1..], [sep]), sep) == parts[1..]
    ensures Split(Join(parts, [sep]), sep) == parts
  {
    var rest := Join(parts[1..], [sep]);
    SplitCons(parts[0], sep, rest);
    assert Join(parts, [sep]) == parts[0] + [sep] + rest;
    assert parts == [parts[0]] + parts[1..];
  }

  lemma SplitJoinOne(parts: seq<string>, sep: char)
    requires |parts| == 1 && sep !in parts[0]
    ensures Split(Join(parts, [sep]), sep) == parts
  {
    assert Join(parts, [sep]) == parts[0];
    assert BeforeFirst(parts[0], sep) == parts[0];
  }

  /** Splitting text that starts with a separator-free piece and a
      separator gives that piece first. */
  lemma SplitCons(a: string, sep: char, b: string)
    requires sep !in a
    ensures Split(a + [sep] + b, sep) == [a] + Split(b, sep)
  {
    var s := a + [sep] + b;
    BeforeFirstAppend(a, sep, b);
    assert s[|a| + 1..] == b;
  }

  /** A slice that lies inside `a` is the same slice of `a + b`. */
  lemma PrefixSlice(a: string, b: string, i: int, n: int)
    requires 0 <= i && 0 <= n && i + n <= |a|
    ensures (a + b)[i..i + n] == a[i..i + n]
  {
  }

  /** Decimal text of a natural number, as `String(n)` writes it. */
  function DigitsOf(n: nat): (r: string)
    ensures |r| >= 1
    ensures forall j :: 0 <= j < |r| ==> '0' <= r[j] <= '9'
    decreases n
  {
    if n < 10 then [('0' as int + n) as char] else DigitsOf(n / 10) + [('0' as int + n % 10) as char]
  }

  /** Decimal text of an integer, as `String(n)` writes it. */
  function IntText(n: int): string
  {
    if n < 0 then "-" + DigitsOf(-n) else DigitsOf(n)
  }

  /** An occurrence of `p` in `[c] + s` that does not start at 0 is one in `s`. */
  lemma OccursInTail(p: string, c: char, s: string, i: int)
    requires OccursAt(p, [c] + s, i) && i > 0
    ensures OccursAt(p, s, i - 1)
  {
    assert ([c] + s)[i..i + |p|] == s[i - 1..i - 1 + |p|];
  }

  /** Replacing a key that does not occur leaves the text unchanged. */
  lemma {:induction false} ReplaceAbsent(s: string, key: string, repl: string)
    requires key != [] && !Occurs(key, s)
    ensures ReplaceAll(s, key, repl) == s
    decreases |s|
  {
    if |s| >= |key| {
      assert !OccursAt(key, s, 0);
      if Occurs(key, s[1..]) {
        var i :| 0 <= i <= |s[1..]| - |key| && OccursAt(key, s[1..], i);
        assert s[1..][i..i + |key|] == s[i + 1..i + 1 + |key|];
        assert OccursAt(key, s, i + 1);
      }
      ReplaceAbsent(s[1..], key, repl);
      assert [s[0]] + s[1..] == s;
    }
  }

  /** After a replacement is emitted, no occurrence of the key starts in the
      emitted text: one ending inside `pre` was excluded before, and one
      reaching the replacement would contain its first character. */
  lemma ClearAfterReplacement(pre: string, s: string, key: string, repl: string)
    requires key != [] && repl != [] && |key| <= |s| && s[..|key|] == key
    requires forall j :: 0 <= j < |repl| ==> repl[j] !in key
    requires forall i :: 0 <= i < |pre| ==> !OccursAt(key, pre + s, i)
    ensures forall i :: 0 <= i < |pre + repl| ==> !OccursAt(key, (pre + repl) + s[|key|..], i)
  {
    var tail := s[|key|..];
    var pre' := pre + repl;
    forall i | 0 <= i < |pre'|
      ensures !OccursAt(key, pre' + tail, i)
    {
      if i < |pre| && i + |key| <= |pre| {
        PrefixSlice(pre, repl + tail, i, |key|);
        PrefixSlice(pre, s, i, |key|);
        assert pre' + tail == pre + (repl + tail);
        assert !OccursAt(key, pre + s, i);
      } else if i < |pre| {
        assert (pre' + tail)[|pre|] == repl[0];
      } else {
        assert (pre' + tail)[i] == repl[i - |pre|];
      }
    }
  }

  /** Passing over a character that does not start the key keeps the
      emitted text free of occurrences. */
  lemma ClearAfterChar(pre: string, s: string, key: string)
    requires key != [] && |key| <= |s| && s[..|key|] != key
    requires forall i :: 0 <= i < |pre| ==> !OccursAt(key, pre + s, i)
    ensures forall i :: 0 <= i < |pre + [s[0]]| ==> !OccursAt(key, (pre + [s[0]]) + s[1..], i)
  {
    var pre' := pre + [s[0]];
    assert pre' + s[1..] == pre + s;
    forall i | 0 <= i < |pre'|
      ensures !OccursAt(key, pre' + s[1..], i)
    {
      if i == |pre| {
        assert (pre + s)[i..i + |key|] == s[..|key|];
      }
    }
  }

  /** When the replacement is not empty and shares no character with the key,
      no occurrence of the key survives `ReplaceAll`: an occurrence would either
      touch a replacement or lie in text the left-to-right scan has passed.
      `pre` is text already emitted in front of the part still to be scanned. */
  lemma {:induction false} ReplaceRemovesKey(pre: string, s: string, key: string, repl: string)
    requires key != [] && repl != []
    requires forall j :: 0 <= j < |repl| ==> repl[j] !in key
    requires forall i :: 0 <= i < |pre| ==> !OccursAt(key, pre + s, i)
    ensures !Occurs(key, pre + ReplaceAll(s, key, repl))
    decreases |s|
  {
    if |s| < |key| {
      assert ReplaceAll(s, key, repl) == s;
    } else if s[..|key|] == key {
      var tail := ReplaceAll(s[|key|..], key, repl);
      ClearAfterReplacement(pre, s, key, repl);
      ReplaceRemovesKey(pre + repl, s[|key|..], key, repl);
      assert ReplaceAll(s, key, repl) == repl + tail;
      AppendAssoc(pre, repl, tail);
    } else {
      var tail := ReplaceAll(s[1..], key, repl);
      ClearAfterChar(pre, s, key);
      ReplaceRemovesKey(pre + [s[0]], s[1..], key, repl);
      assert ReplaceAll(s, key, repl) == [s[0]] + tail;
      AppendAssoc(pre, [s[0]], tail);
    }
  }

  /** The elements of `xs` up to and including the first one that `stops`:
      the calls a program makes when the first failing one ends it. */
  function UpToFirst<T>(xs: seq<T>, stops: T -> bool): (r: seq<T>)
    ensures r <= xs
    ensures forall k :: 0 <= k < |r| - 1 ==> !stops(r[k])
    ensures |r| < |xs| ==> r != [] && stops(r[|r| - 1])
    ensures NoneStop(xs, stops) ==> r == xs
    ensures !NoneStop(xs, stops) ==> r != [] && stops(r[|r| - 1])
    decreases |xs|
  {
    if xs == [] then []
    else if stops(xs[0]) then [xs[0]]
    else [xs[0]] + UpToFirst(xs[1..], stops)
  }

  /** Concatenation regroups; stated once so that methods appending to a
      log in steps need not rediscover it. */
  lemma AppendAssoc<T>(a: seq<T>, b: seq<T>, c: seq<T>)
    ensures a + b + c == a + (b + c)
  {
  }

  /** No element of `xs` stops. */
  predicate NoneStop<T>(xs: seq<T>, stops: T -> bool)
  {
    forall k :: 0 <= k < |xs| ==> !stops(xs[k])
  }

  lemma NoneStopAppend<T>(xs: seq<T>, ys: seq<T>, stops: T -> bool)
    ensures NoneStop(xs + ys, stops) <==> NoneStop(xs, stops) && NoneStop(ys, stops)
  {
    if NoneStop(xs, stops) && NoneStop(ys, stops) {
      forall k | 0 <= k < |xs + ys|
        ensures !stops((xs + ys)[k])
      {
        if k >= |xs| {
          assert (xs + ys)[k] == ys[k - |xs|];
        }
      }
    }
    if NoneStop(xs + ys, stops) {
      forall k | 0 <= k < |xs|
        ensures !stops(xs[k])
      {
        assert (xs + ys)[k] == xs[k];
      }
      forall k | 0 <= k < |ys|
        ensures !stops(ys[k])
      {
        assert (xs + ys)[|xs| + k] == ys[k];
      }
    }
  }

  /** `UpToFirst` is the only prefix that ends at the first stopping element,
      or is the whole sequence when none stops. */
  lemma UpToFirstUnique<T>(xs: seq<T>, stops: T -> bool, r: seq<T>)
    requires r <= xs
    requires forall k :: 0 <= k < |r| - 1 ==> !stops(r[k])
    requires |r| < |xs| ==> r != [] && stops(r[|r| - 1])
    ensures r == UpToFirst(xs, stops)
  {
    var u := UpToFirst(xs, stops);
    assert r == xs[..|r|] && u == xs[..|u|];
  }

  /** The index of the first element satisfying `p`, or `|s|` when there
      is none: the search behind `find_one`, `update_one` and the first
      match of a name. */
  function FirstIndex<T>(s: seq<T>, p: T -> bool): (i: nat)
    ensures i <= |s|
    ensures i < |s| ==> p(s[i])
    ensures forall j :: 0 <= j < i ==> !p(s[j])
  {
    if s == [] then 0 else if p(s[0]) then 0 else 1 + FirstIndex(s[1..], p)
  }
}
