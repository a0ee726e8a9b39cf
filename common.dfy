/** String helpers shared by the model: Python's truthiness of an optional
    string, `str.lstrip` with one character, `str.split` with a one-character
    separator, `str.join`, `str.endswith` and an ASCII `str.lower`. */
module Common {

  datatype Option<T> = None | Some(value: T)

  /** Python truthiness of a value that is either None or a str: None and ""
      are false, every other string is true. */
  predicate Truthy(o: Option<string>) {
    o.Some? && o.value != ""
  }

  /** `s.lstrip(c)`: removes every leading occurrence of `c`, not just one. */
  function LStrip(s: string, c: char): (r: string)
    ensures |r| <= |s| && r == s[|s| - |r|..]
    ensures r == [] || r[0] != c
    ensures forall i :: 0 <= i < |s| - |r| ==> s[i] == c
  {
    if s != [] && s[0] == c then LStrip(s[1..], c) else s
  }

  /** `s.split(sep)` for a one-character separator: the pieces between
      separators, in order; never empty (`"".split("/") == [""]`). */
  function Split(s: string, sep: char): (r: seq<string>)
    ensures |r| >= 1
    ensures forall k :: 0 <= k < |r| ==> sep !in r[k]
  {
    if s == [] then [[]]
    else
      var rest := Split(s[1..], sep);
      if s[0] == sep then [[]] + rest
      else [[s[0]] + rest[0]] + rest[1..]
  }

  /** `sep.join(parts)`. */
  function JoinWith(parts: seq<string>, sep: string): string {
    if |parts| == 0 then []
    else if |parts| == 1 then parts[0]
    else JoinWith(parts[..|parts| - 1], sep) + sep + parts[|parts| - 1]
  }

  /** `"".join(parts)`. */
  function Concat(parts: seq<string>): string {
    JoinWith(parts, "")
  }

  /** `s.split(sep)[-1]`: the part after the last separator, the whole string
      when there is none. Stated as the longest separator-free suffix. */
  function LastSegment(s: string, sep: char): (r: string)
    ensures |r| <= |s| && r == s[|s| - |r|..]
    ensures sep !in r
    ensures |r| < |s| ==> s[|s| - |r| - 1] == sep
  {
    if s == [] then []
    else if s[|s| - 1] == sep then []
    else LastSegment(s[..|s| - 1], sep) + [s[|s| - 1]]
  }

  /** `s.split(sep)[0]`: the part before the first separator. Stated as the
      longest separator-free prefix. */
  function FirstSegment(s: string, sep: char): (r: string)
    ensures |r| <= |s| && r == s[..|r|]
    ensures sep !in r
    ensures |r| < |s| ==> s[|r|] == sep
  {
    if s == [] || s[0] == sep then []
    else [s[0]] + FirstSegment(s[1..], sep)
  }

  predicate EndsWith(s: string, suffix: string) {
    |suffix| <= |s| && s[|s| - |suffix|..] == suffix
  }

  /** `s.lower()` restricted to ASCII letters; every other character is kept. */
  function AsciiLower(s: string): (r: string)
    ensures |r| == |s|
    ensures forall i :: 0 <= i < |s| ==>
      r[i] == (if 'A' <= s[i] <= 'Z' then (s[i] as int + 32) as char else s[i])
  {
    if s == [] then [] else [LowerChar(s[0])] + AsciiLower(s[1..])
  }

  function LowerChar(c: char): char {
    if 'A' <= c <= 'Z' then (c as int + 32) as char else c
  }

  /** Splitting and joining back with the same separator gives the string back. */
  lemma {:induction false} SplitJoin(s: string, sep: char)
    ensures JoinWith(Split(s, sep), [sep]) == s
  {
    if s != [] {
      SplitJoin(s[1..], sep);
      var rest := Split(s[1..], sep);
      if s[0] == sep {
        JoinPrepend([], rest, [sep]);
      } else {
        JoinHead(s[0], rest, [sep]);
      }
    }
  }

  /** Joining `[p] + rest` is `p`, the separator, then the join of `rest`. */
  lemma {:induction false} JoinPrepend(p: string, rest: seq<string>, sep: string)
    requires |rest| >= 1
    ensures JoinWith([p] + rest, sep) == p + sep + JoinWith(rest, sep)
  {
    if |rest| == 1 {
      assert [p] + rest == [p, rest[0]];
    } else {
      var init := rest[..|rest| - 1];
      assert ([p] + rest)[..|rest|] == [p] + init;
      JoinPrepend(p, init, sep);
    }
  }

  /** Putting a character in front of the first part puts it in front of the join. */
  lemma {:induction false} JoinHead(c: char, parts: seq<string>, sep: string)
    requires |parts| >= 1
    ensures JoinWith([[c] + parts[0]] + parts[1..], sep) == [c] + JoinWith(parts, sep)
  {
    if |parts| == 1 {
      assert [[c] + parts[0]] + parts[1..] == [[c] + parts[0]];
    } else {
      JoinPrepend([c] + parts[0], parts[1..], sep);
      JoinPrepend(parts[0], parts[1..], sep);
      assert [parts[0]] + parts[1..] == parts;
    }
  }

  /** The last piece of the split is the part after the last separator. */
  lemma {:induction false} SplitLast(s: string, sep: char)
    ensures Split(s, sep)[|Split(s, sep)| - 1] == LastSegment(s, sep)
  {
    SplitJoin(s, sep);
    var parts := Split(s, sep);
    var last := parts[|parts| - 1];
    if |parts| == 1 {
      assert s == last;
    } else {
      assert s == JoinWith(parts[..|parts| - 1], [sep]) + [sep] + last;
    }
    SuffixSegment(s, sep, last);
  }

  /** A separator-free suffix that follows a separator (or is everything) is the last segment. */
  lemma SuffixSegment(s: string, sep: char, t: string)
    requires |t| <= |s| && s[|s| - |t|..] == t && sep !in t
    requires |t| < |s| ==> s[|s| - |t| - 1] == sep
    ensures t == LastSegment(s, sep)
  {
  }

  /** The first piece of the split is the part before the first separator. */
  lemma {:induction false} SplitFirst(s: string, sep: char)
    ensures Split(s, sep)[0] == FirstSegment(s, sep)
  {
    if s != [] && s[0] != sep {
      SplitFirst(s[1..], sep);
    }
  }

  /** The join has every part, in order, with one separator between
      neighbours: its length is the parts' lengths plus the separators, and
      appending a part appends the separator and that part. */
  lemma {:induction false} JoinAppend(parts: seq<string>, p: string, sep: string)
    ensures JoinWith(parts + [p], sep) == if parts == [] then p else JoinWith(parts, sep) + sep + p
    ensures |JoinWith(parts + [p], sep)| == |JoinWith(parts, sep)| + (if parts == [] then 0 else |sep|) + |p|
  {
    assert (parts + [p])[..|parts|] == parts;
  }

  /** Stripping is idempotent and a stripped character in front changes nothing. */
  lemma LStripAbsorbs(s: string, c: char)
    ensures LStrip([c] + s, c) == LStrip(s, c)
    ensures LStrip(LStrip(s, c), c) == LStrip(s, c)
  {
    assert ([c] + s)[1..] == s;
  }
}
