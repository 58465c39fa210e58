/** The length-framed byte stream a report's fingerprints hash
    (cmd/ao-harness/bench_report_types.go). A character stands for a byte. */
module Fingerprint {
  import opened Text
  import opened Decimal

  /** One part, framed by its length. */
  function Frame(part: string): string { Itoa(|part|) + ":" + part }

  function Stream(parts: seq<string>): string {
    if parts == [] then "" else Frame(parts[0]) + Stream(parts[1..])
  }

  lemma {:induction false} StreamAppend(a: seq<string>, b: seq<string>)
    ensures Stream(a + b) == Stream(a) + Stream(b)
  {
    if a == [] {
      assert a + b == b;
    } else {
      assert (a + b)[1..] == a[1..] + b;
      StreamAppend(a[1..], b);
    }
  }

  /** What fingerprintBenchParts writes to its hash. */
  method WriteParts(parts: seq<string>) returns (h: string)
    ensures h == Stream(parts)
    ensures Decode(h) == Some(parts)
  {
    h := "";
    for i := 0 to |parts|
      invariant h == Stream(parts[..i])
    {
      assert parts[..i + 1] == parts[..i] + [parts[i]];
      StreamAppend(parts[..i], [parts[i]]);
      assert Stream([parts[i]]) == Frame(parts[i]) + Stream([]);
      h := h + Itoa(|parts[i]|) + ":";
      h := h + parts[i];
    }
    assert parts[..|parts|] == parts;
    DecodeStream(parts);
  }

  function DigitsLength(s: string): (n: nat)
    ensures n <= |s| && AllDigits(s[..n])
    ensures n < |s| ==> !IsDigit(s[n])
  {
    if s == [] || !IsDigit(s[0]) then 0
    else
      var n := DigitsLength(s[1..]);
      assert s[..n + 1] == [s[0]] + s[1..][..n];
      n + 1
  }

  /** A reader of the stream: a printed length, a colon, that many bytes, and so on. */
  function Decode(s: string): Option<seq<string>>
    decreases |s|
  {
    if s == "" then Some([])
    else
      var n := DigitsLength(s);
      if n == 0 || n == |s| || s[n] != ':' then None
      else
        var length := Value(s[..n]);
        if Itoa(length) != s[..n] || |s| < n + 1 + length then None
        else
          var rest := Decode(s[n + 1 + length..]);
          if rest.None? then None else Some([s[n + 1..n + 1 + length]] + rest.value)
  }

  lemma {:induction false} DigitsBefore(digits: string, c: char, rest: string)
    requires AllDigits(digits) && !IsDigit(c)
    ensures DigitsLength(digits + [c] + rest) == |digits|
  {
    var s := digits + [c] + rest;
    var n := DigitsLength(s);
    assert forall i :: 0 <= i < |digits| ==> s[i] == digits[i];
    assert s[|digits|] == c;
    assert forall k :: |digits| < k <= |s| ==> s[..k][|digits|] == c;
  }

  lemma DecodeFrame(part: string, rest: string)
    ensures Decode(Frame(part) + rest) == if Decode(rest).None? then None else Some([part] + Decode(rest).value)
  {
    var digits := Itoa(|part|);
    var s := Frame(part) + rest;
    assert s == digits + [':'] + (part + rest);
    DigitsBefore(digits, ':', part + rest);
    ValueOfItoa(|part|);
    assert s[..|digits|] == digits;
    assert s[|digits| + 1..|digits| + 1 + |part|] == part;
    assert s[|digits| + 1 + |part|..] == rest;
  }

  /** The parts can be read back from the stream. */
  lemma {:induction false} DecodeStream(parts: seq<string>)
    ensures Decode(Stream(parts)) == Some(parts)
  {
    if parts != [] {
      DecodeStream(parts[1..]);
      DecodeFrame(parts[0], Stream(parts[1..]));
      assert parts == [parts[0]] + parts[1..];
    }
  }

  /** What one round of decoding finds. */
  lemma DecodeReadsAFrame(s: string)
    requires s != "" && Decode(s).Some?
    ensures exists part, rest ::
              s == Frame(part) + rest && Decode(rest).Some? && Decode(s).value == [part] + Decode(rest).value
  {
    var n := DigitsLength(s);
    var length := Value(s[..n]);
    var part, rest := s[n + 1..n + 1 + length], s[n + 1 + length..];
    CutAt(s, n, length);
    assert Frame(part) == s[..n] + ":" + part;
    assert Decode(s) == Some([part] + Decode(rest).value);
  }

  lemma CutAt(s: string, n: nat, length: nat)
    requires n + 1 + length <= |s| && s[n] == ':'
    ensures s == (s[..n] + ":" + s[n + 1..n + 1 + length]) + s[n + 1 + length..]
  {
  }

  /** And nothing else is read: a string decodes exactly when it is the stream of what it
      decodes to. */
  lemma {:induction false} DecodedIsStreamed(s: string)
    requires Decode(s).Some?
    ensures Stream(Decode(s).value) == s
    decreases |s|
  {
    if s != "" {
      DecodeReadsAFrame(s);
      var part, rest :| s == Frame(part) + rest && Decode(rest).Some? && Decode(s).value == [part] + Decode(rest).value;
      DecodedIsStreamed(rest);
      assert Decode(s).value[1..] == Decode(rest).value;
    }
  }

  /** Two lists with one stream are one list, however their bytes are split into parts. */
  lemma StreamInjective(a: seq<string>, b: seq<string>)
    ensures Stream(a) == Stream(b) <==> a == b
  {
    DecodeStream(a);
    DecodeStream(b);
  }

  /** The stream of two parts, written out. */
  lemma StreamAsWritten()
    ensures Stream(["ab", ""]) == "2:ab0:"
  {
    assert Itoa(2) == "2" && Itoa(0) == "0";
    assert ["ab", ""][1..] == [""] && [""][1..] == [];
    assert Frame("ab") == "2:ab" && Frame("") == "0:";
  }
}
