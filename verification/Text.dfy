/** Strings as Go's standard library treats them: byte order, white space, splitting
    and joining. A Go string is modelled as its sequence of characters. */
module Text {
  datatype Option<+T> = None | Some(value: T)

  /** The order of Go's `<` on strings. Comparing the characters of two valid UTF-8
      strings orders them as comparing their bytes does. */
  predicate Less(a: string, b: string) {
    if b == [] then false
    else if a == [] then true
    else a[0] < b[0] || (a[0] == b[0] && Less(a[1..], b[1..]))
  }

  lemma {:induction false} LessTransitive(a: string, b: string, c: string)
    requires Less(a, b) && Less(b, c)
    ensures Less(a, c)
  {
    if a != [] && a[0] == b[0] == c[0] {
      LessTransitive(a[1..], b[1..], c[1..]);
    }
  }

  lemma {:induction false} LessTotal(a: string, b: string)
    requires !Less(a, b) && !Less(b, a)
    ensures a == b
  {
    if a != [] && b != [] {
      LessTotal(a[1..], b[1..]);
      assert a == [a[0]] + a[1..] && b == [b[0]] + b[1..];
    }
  }

  lemma {:induction false} LessIrreflexive(a: string)
    ensures !Less(a, a)
  {
    if a != [] { LessIrreflexive(a[1..]); }
  }

  /** A string order has no incomparable middle: the weak-order condition of a sort. */
  lemma LessIsStrictWeakOrder()
    ensures forall a :: !Less(a, a)
    ensures forall a, b, c :: Less(a, b) && Less(b, c) ==> Less(a, c)
    ensures forall a, b :: !Less(a, b) && !Less(b, a) ==> a == b
    ensures forall a, b, c :: Less(a, c) ==> Less(a, b) || Less(b, c)
  {
    forall a ensures !Less(a, a) { LessIrreflexive(a); }
    forall a, b, c | Less(a, b) && Less(b, c) ensures Less(a, c) { LessTransitive(a, b, c); }
    forall a, b | !Less(a, b) && !Less(b, a) ensures a == b { LessTotal(a, b); }
    forall a, b, c | Less(a, c) ensures Less(a, b) || Less(b, c) {
      if !Less(a, b) {
        if Less(b, a) { LessTransitive(b, a, c); } else { LessTotal(a, b); }
      }
    }
  }

  /** The order in plain terms: a proper prefix is less, and else the first difference decides. */
  lemma {:induction false} LessIff(a: string, b: string)
    ensures Less(a, b) <==> a < b || exists k :: DiffersAt(a, b, k) && a[k] < b[k]
  {
    if a != [] && b != [] {
      if a[0] == b[0] {
        LessIff(a[1..], b[1..]);
        DiffersLater(a, b);
        assert a < b <==> a[1..] < b[1..];
      } else {
        assert DiffersAt(a, b, 0);
      }
    }
  }

  lemma DiffersLater(a: string, b: string)
    requires a != [] && b != [] && a[0] == b[0]
    ensures forall k :: DiffersAt(a[1..], b[1..], k) ==> DiffersAt(a, b, k + 1)
    ensures forall k :: DiffersAt(a, b, k) ==> k > 0 && DiffersAt(a[1..], b[1..], k - 1)
  {
    forall k | DiffersAt(a[1..], b[1..], k) ensures DiffersAt(a, b, k + 1) {
      assert a[..k + 1] == [a[0]] + a[1..][..k] && b[..k + 1] == [b[0]] + b[1..][..k];
    }
    forall k | DiffersAt(a, b, k) ensures k > 0 && DiffersAt(a[1..], b[1..], k - 1) {
      assert a[1..][..k - 1] == a[..k][1..] && b[1..][..k - 1] == b[..k][1..];
    }
  }

  predicate DiffersAt(a: string, b: string, k: int) {
    0 <= k < |a| && k < |b| && a[..k] == b[..k] && a[k] != b[k]
  }

  /** unicode.IsSpace */
  predicate IsSpace(c: char) {
    var u := c as int;
    || 9 <= u <= 13 || u == 32 || u == 0x85 || u == 0xA0 || u == 0x1680
    || 0x2000 <= u <= 0x200a || u == 0x2028 || u == 0x2029 || u == 0x202f || u == 0x205f || u == 0x3000
  }

  predicate NoSpace(s: string) {
    forall i :: 0 <= i < |s| ==> !IsSpace(s[i])
  }

  function TrimLeft(s: string): (r: string)
    ensures r == [] || !IsSpace(r[0])
    ensures |r| <= |s|
  {
    if s != [] && IsSpace(s[0]) then TrimLeft(s[1..]) else s
  }

  function TrimRight(s: string): (r: string)
    ensures r == [] || !IsSpace(r[|r| - 1])
    ensures |r| <= |s| && r == s[..|r|]
  {
    if s != [] && IsSpace(s[|s| - 1]) then TrimRight(s[..|s| - 1]) else s
  }

  /** strings.TrimSpace */
  function TrimSpace(s: string): string { TrimRight(TrimLeft(s)) }

  lemma TrimSpaceKeepsTokens(s: string)
    requires NoSpace(s)
    ensures TrimSpace(s) == s
  {
  }

  predicate AllSpace(s: string) { forall i :: 0 <= i < |s| ==> IsSpace(s[i]) }

  lemma {:induction false} TrimLeftDrops(left: string, s: string)
    requires AllSpace(left) && s != [] && !IsSpace(s[0])
    ensures TrimLeft(left + s) == s
  {
    if left == [] {
      assert left + s == s;
    } else {
      assert (left + s)[1..] == left[1..] + s;
      TrimLeftDrops(left[1..], s);
    }
  }

  lemma {:induction false} TrimRightDrops(s: string, right: string)
    requires AllSpace(right) && s != [] && !IsSpace(s[|s| - 1])
    ensures TrimRight(s + right) == s
  {
    if right == [] {
      assert s + right == s;
    } else {
      assert (s + right)[..|s + right| - 1] == s + right[..|right| - 1];
      TrimRightDrops(s, right[..|right| - 1]);
    }
  }

  /** Trimming drops the space around a word and nothing of the word. */
  lemma TrimSpaceDropsPadding(left: string, word: string, right: string)
    requires AllSpace(left) && AllSpace(right) && word != [] && NoSpace(word)
    ensures TrimSpace(left + word + right) == word
  {
    assert left + word + right == left + (word + right);
    assert (word + right)[0] == word[0];
    TrimLeftDrops(left, word + right);
    TrimRightDrops(word, right);
  }

  /** strings.Split for a one-character separator. */
  function Split(s: string, sep: char): (r: seq<string>)
    ensures r != []
  {
    if s == [] then [""]
    else if s[0] == sep then [""] + Split(s[1..], sep)
    else var rest := Split(s[1..], sep); [[s[0]] + rest[0]] + rest[1..]
  }

  /** strings.Join for a one-character separator. */
  function Join(parts: seq<string>, sep: char): string {
    if parts == [] then ""
    else if |parts| == 1 then parts[0]
    else parts[0] + [sep] + Join(parts[1..], sep)
  }

  lemma {:induction false} SplitOne(s: string, sep: char)
    requires sep !in s
    ensures Split(s, sep) == [s]
  {
    if s != [] {
      SplitOne(s[1..], sep);
      assert s == [s[0]] + s[1..];
    }
  }

  lemma {:induction false} SplitPrefix(s: string, sep: char, rest: string)
    requires sep !in s
    ensures Split(s + [sep] + rest, sep) == [s] + Split(rest, sep)
  {
    var t := s + [sep] + rest;
    if s == [] {
      assert t[1..] == rest;
    } else {
      assert t[1..] == s[1..] + [sep] + rest;
      SplitPrefix(s[1..], sep, rest);
      assert s == [s[0]] + s[1..];
    }
  }

  /** Splitting undoes joining when no part holds the separator. */
  lemma {:induction false} SplitJoin(parts: seq<string>, sep: char)
    requires parts != []
    requires forall i :: 0 <= i < |parts| ==> sep !in parts[i]
    ensures Split(Join(parts, sep), sep) == parts
  {
    if |parts| == 1 {
      SplitOne(parts[0], sep);
    } else {
      SplitPrefix(parts[0], sep, Join(parts[1..], sep));
      SplitJoin(parts[1..], sep);
      assert parts == [parts[0]] + parts[1..];
    }
  }

  /** strings.Fields, also the word splitting of an unquoted shell expansion: the runs
      without white space. `word` is the run being read. */
  function FieldsFrom(word: string, s: string): seq<string>
    decreases |s|
  {
    if s == [] then (if word == [] then [] else [word])
    else if IsSpace(s[0]) then (if word == [] then [] else [word]) + FieldsFrom([], s[1..])
    else FieldsFrom(word + [s[0]], s[1..])
  }

  function Fields(s: string): seq<string> { FieldsFrom([], s) }

  lemma {:induction false} FieldsOfWord(word: string, w: string, rest: string)
    requires NoSpace(w)
    ensures FieldsFrom(word, w + rest) == FieldsFrom(word + w, rest)
    decreases |w|
  {
    if w == [] {
      assert w + rest == rest && word + w == word;
    } else {
      assert (w + rest)[1..] == w[1..] + rest;
      assert word + [w[0]] + w[1..] == word + w;
      FieldsOfWord(word + [w[0]], w[1..], rest);
    }
  }

  /** Splitting into fields undoes joining non-empty words with one space. */
  lemma {:induction false} FieldsOfJoin(words: seq<string>)
    requires forall i :: 0 <= i < |words| ==> words[i] != [] && NoSpace(words[i])
    ensures Fields(Join(words, ' ')) == words
  {
    if |words| == 1 {
      FieldsOfWord([], words[0], []);
      assert words[0] + [] == words[0] && [] + words[0] == words[0];
    } else if |words| > 1 {
      var rest := [' '] + Join(words[1..], ' ');
      assert Join(words, ' ') == words[0] + rest;
      FieldsOfWord([], words[0], rest);
      assert [] + words[0] == words[0];
      assert rest[1..] == Join(words[1..], ' ');
      FieldsOfJoin(words[1..]);
      assert words == [words[0]] + words[1..];
    }
  }
}
