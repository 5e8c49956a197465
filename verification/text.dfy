/** Splitting and joining of strings at a one-octet separator, as the operator uses them for its
    configuration, for `namespace:name` project references and for the target-app label.
    Throughout the project one `char` stands for one octet of a Go string. */
module Text {
  datatype Option<+T> = None | Some(value: T)

  predicate HasPrefix(s: string, prefix: string) {
    prefix <= s
  }

  predicate HasSuffix(s: string, suffix: string) {
    |suffix| <= |s| && s[|s| - |suffix|..] == suffix
  }

  function Lookup(m: map<string, string>, key: string): string {
    if key in m then m[key] else ""
  }

  function Split(s: string, sep: char): (parts: seq<string>)
    ensures |parts| >= 1
    ensures forall i | 0 <= i < |parts| :: sep !in parts[i]
  {
    if s == "" then [""]
    else
      var rest := Split(s[1..], sep);
      if s[0] == sep then [""] + rest else [[s[0]] + rest[0]] + rest[1..]
  }

  function Join(parts: seq<string>, sep: char): string {
    if |parts| == 0 then ""
    else if |parts| == 1 then parts[0]
    else parts[0] + [sep] + Join(parts[1..], sep)
  }

  lemma {:induction false} JoinSplit(s: string, sep: char)
    ensures Join(Split(s, sep), sep) == s
  {
    if s != "" {
      JoinSplit(s[1..], sep);
      var rest := Split(s[1..], sep);
      assert Split(s, sep)[1..] == if s[0] == sep then rest else rest[1..];
    }
  }

  lemma {:induction false} SplitAt(head: string, rest: string, sep: char)
    requires sep !in head
    ensures Split(head + [sep] + rest, sep) == [head] + Split(rest, sep)
    decreases head
  {
    var s := head + [sep] + rest;
    if head == "" {
      assert s[1..] == rest;
    } else {
      assert s[1..] == head[1..] + [sep] + rest;
      SplitAt(head[1..], rest, sep);
      assert [head[0]] + head[1..] == head;
    }
  }

  lemma {:induction false} SplitWhole(s: string, sep: char)
    requires sep !in s
    ensures Split(s, sep) == [s]
  {
    if s != "" {
      SplitWhole(s[1..], sep);
      assert [s[0]] + s[1..] == s;
    }
  }

  lemma {:induction false} SplitJoin(parts: seq<string>, sep: char)
    requires |parts| >= 1
    requires forall i | 0 <= i < |parts| :: sep !in parts[i]
    ensures Split(Join(parts, sep), sep) == parts
  {
    if |parts| == 1 {
      SplitWhole(parts[0], sep);
    } else {
      SplitJoin(parts[1..], sep);
      SplitAt(parts[0], Join(parts[1..], sep), sep);
    }
  }

  /** The two halves of `s` when `sep` occurs in it exactly once, otherwise an error (None). */
  function ParseHalves(s: string, sep: char): Option<(string, string)> {
    var parts := Split(s, sep);
    if |parts| == 2 then Some((parts[0], parts[1])) else None
  }

  /** Parsing and printing are inverse to each other exactly where the separator is in neither half. */
  lemma ParseHalvesExact(s: string, sep: char, left: string, right: string)
    ensures ParseHalves(s, sep) == Some((left, right))
       <==> s == left + [sep] + right && sep !in left && sep !in right
  {
    if s == left + [sep] + right && sep !in left && sep !in right {
      SplitAt(left, right, sep);
      SplitWhole(right, sep);
    }
    if ParseHalves(s, sep) == Some((left, right)) {
      JoinSplit(s, sep);
      assert Split(s, sep) == [left, right];
      assert Join([right], sep) == right;
    }
  }

  lemma SameSplitPoint(l: string, r: string, left: string, right: string, sep: char)
    requires l + [sep] + r == left + [sep] + right
    requires sep !in l && sep !in r
    ensures l == left && r == right
  {
    var s := l + [sep] + r;
    assert s[|left|] == sep && s[|l|] == sep;
    assert forall i | |l| < i < |s| :: s[i] == r[i - |l| - 1];
    assert forall i | 0 <= i < |l| :: s[i] == l[i];
    assert s[..|l|] == l && s[..|left|] == left;
    assert s[|l| + 1..] == r && s[|left| + 1..] == right;
  }

  /** A printed pair parses if and only if neither half contains the separator. */
  lemma PrintedPairParses(left: string, right: string, sep: char)
    ensures ParseHalves(left + [sep] + right, sep).Some? <==> sep !in left && sep !in right
    ensures sep !in left && sep !in right ==>
      ParseHalves(left + [sep] + right, sep) == Some((left, right))
  {
    var s := left + [sep] + right;
    if sep !in left && sep !in right {
      ParseHalvesExact(s, sep, left, right);
    }
    var parsed := ParseHalves(s, sep);
    if parsed.Some? {
      var (l, r) := parsed.value;
      ParseHalvesExact(s, sep, l, r);
      SameSplitPoint(l, r, left, right, sep);
    }
  }
}
