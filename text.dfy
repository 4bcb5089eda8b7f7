/**
 The two string operations the poll-list construction relies on: .NET's
 `String.Split(char)`, which keeps empty fields, and `String.Trim()`, which
 removes leading and trailing white space.
 */
module Text {

  /** The characters for which .NET's `Char.IsWhiteSpace` holds. */
  predicate IsWhiteSpace(c: char) {
    ('\t' <= c <= '\r') || c == ' ' || c == '\U{0085}' || c == '\U{00A0}' || c == '\U{1680}'
    || ('\U{2000}' <= c <= '\U{200A}') || c == '\U{2028}' || c == '\U{2029}' || c == '\U{202F}'
    || c == '\U{205F}' || c == '\U{3000}'
  }

  ghost predicate AllWhiteSpace(s: string) {
    forall k :: 0 <= k < |s| ==> IsWhiteSpace(s[k])
  }

  /** The fields of `s` between occurrences of `sep`; empty fields are kept, so there is always one field more than separators. */
  function Split(s: string, sep: char): (fields: seq<string>)
    ensures |fields| >= 1
    ensures forall k :: 0 <= k < |fields| ==> sep !in fields[k]
  {
    if s == [] then [[]]
    else
      var rest := Split(s[1..], sep);
      if s[0] == sep then [[]] + rest
      else [[s[0]] + rest[0]] + rest[1..]
  }

  /** The fields put back together with `sep` between them: the inverse of Split. */
  function Join(fields: seq<string>, sep: char): string
    requires |fields| >= 1
  {
    if |fields| == 1 then fields[0] else fields[0] + [sep] + Join(fields[1..], sep)
  }

  /** Joining the fields of a split gives back the original string. */
  lemma {:induction false} JoinSplit(s: string, sep: char)
    ensures Join(Split(s, sep), sep) == s
  {
    if s != [] {
      var rest := Split(s[1..], sep);
      JoinSplit(s[1..], sep);
      if s[0] == sep {
        assert Split(s, sep) == [[]] + rest;
        assert Join([[]] + rest, sep) == [] + [sep] + Join(rest, sep);
      } else {
        var fields := [[s[0]] + rest[0]] + rest[1..];
        assert Split(s, sep) == fields;
        if |rest| == 1 {
          assert Join(fields, sep) == [s[0]] + rest[0];
        } else {
          assert fields[1..] == rest[1..];
          assert Join(rest, sep) == rest[0] + [sep] + Join(rest[1..], sep);
          assert Join(fields, sep) == [s[0]] + rest[0] + [sep] + Join(rest[1..], sep);
        }
      }
    }
  }

  /** Splitting text that starts with a separator-free word extends the first field by that word. */
  lemma {:induction false} SplitWord(w: string, t: string, sep: char)
    requires sep !in w
    ensures Split(w + t, sep) == [w + Split(t, sep)[0]] + Split(t, sep)[1..]
  {
    var tail := Split(t, sep);
    if w != [] {
      assert (w + t)[0] == w[0] && (w + t)[1..] == w[1..] + t;
      SplitWord(w[1..], t, sep);
      var rest := Split(w[1..] + t, sep);
      assert rest[0] == w[1..] + tail[0] && rest[1..] == tail[1..];
      assert Split(w + t, sep) == [[w[0]] + rest[0]] + rest[1..];
      assert [w[0]] + rest[0] == w + tail[0];
    } else {
      assert w + t == t && w + tail[0] == tail[0];
      assert tail == [tail[0]] + tail[1..];
    }
  }

  /** Splitting joined separator-free fields gives back those fields. */
  lemma {:induction false} SplitJoin(fields: seq<string>, sep: char)
    requires |fields| >= 1
    requires forall k :: 0 <= k < |fields| ==> sep !in fields[k]
    ensures Split(Join(fields, sep), sep) == fields
  {
    if |fields| == 1 {
      SplitWord(fields[0], [], sep);
      assert fields[0] + [] == fields[0];
    } else {
      var tail := Join(fields[1..], sep);
      SplitJoin(fields[1..], sep);
      assert Join(fields, sep) == fields[0] + ([sep] + tail);
      SplitWord(fields[0], [sep] + tail, sep);
      assert ([sep] + tail)[1..] == tail;
      assert Split([sep] + tail, sep) == [[]] + fields[1..];
      assert fields[0] + [] == fields[0];
      assert fields == [fields[0]] + fields[1..];
    }
  }

  /** The number of white-space characters `s` starts with. */
  function LeadingWhiteSpace(s: string): (n: nat)
    ensures n <= |s| && AllWhiteSpace(s[..n])
    ensures n < |s| ==> !IsWhiteSpace(s[n])
  {
    if s != [] && IsWhiteSpace(s[0]) then
      var m := LeadingWhiteSpace(s[1..]);
      assert forall k :: 1 <= k < m + 1 ==> s[k] == s[1..][..m][k - 1];
      m + 1
    else 0
  }

  /** The number of white-space characters `s` ends with. */
  function TrailingWhiteSpace(s: string): (n: nat)
    ensures n <= |s| && AllWhiteSpace(s[|s| - n..])
    ensures n < |s| ==> !IsWhiteSpace(s[|s| - n - 1])
  {
    if s != [] && IsWhiteSpace(s[|s| - 1]) then
      var m := TrailingWhiteSpace(s[..|s| - 1]);
      assert forall k :: |s| - m - 1 <= k < |s| - 1 ==> s[k] == s[..|s| - 1][|s| - 1 - m..][k - (|s| - 1 - m)];
      m + 1
    else 0
  }

  /** `s` without leading and trailing white space: the part of `s` between two white-space runs that neither starts nor ends with white space. */
  function Trim(s: string): (r: string)
    ensures r != [] ==> !IsWhiteSpace(r[0]) && !IsWhiteSpace(r[|r| - 1])
    ensures exists i :: 0 <= i <= |s| - |r| && s[i..i + |r|] == r
                        && AllWhiteSpace(s[..i]) && AllWhiteSpace(s[i + |r|..])
  {
    var i := LeadingWhiteSpace(s);
    var t := s[i..];
    var r := t[..|t| - TrailingWhiteSpace(t)];
    assert r != [] ==> r[0] == t[0];
    assert s[i..i + |r|] == r;
    assert s[i + |r|..] == t[|r|..];
    assert AllWhiteSpace(s[..i]) && AllWhiteSpace(s[i + |r|..]);
    r
  }

  /** Trim removes exactly the white-space padding around a word that is not itself padded. */
  lemma {:induction false} TrimPadded(before: string, word: string, after: string)
    requires AllWhiteSpace(before) && AllWhiteSpace(after)
    requires word != [] ==> !IsWhiteSpace(word[0]) && !IsWhiteSpace(word[|word| - 1])
    ensures Trim(before + word + after) == word
  {
    var s := before + word + after;
    if word == [] {
      assert AllWhiteSpace(s) by {
        forall k | 0 <= k < |s| ensures IsWhiteSpace(s[k]) {
          if k >= |before| { assert s[k] == after[k - |before|]; }
        }
      }
      LeadingAllWhiteSpace(s);
    } else {
      LeadingPadded(before, word + after);
      assert s == before + (word + after);
      assert s[|before|..] == word + after;
      TrailingPadded(word, after);
      assert (word + after)[..|word|] == word;
    }
  }

  lemma {:induction false} LeadingAllWhiteSpace(s: string)
    requires AllWhiteSpace(s)
    ensures LeadingWhiteSpace(s) == |s|
  {
    if s != [] {
      LeadingAllWhiteSpace(s[1..]);
    }
  }

  lemma {:induction false} LeadingPadded(before: string, rest: string)
    requires AllWhiteSpace(before)
    requires rest != [] ==> !IsWhiteSpace(rest[0])
    ensures LeadingWhiteSpace(before + rest) == |before|
  {
    if before != [] {
      assert (before + rest)[1..] == before[1..] + rest;
      LeadingPadded(before[1..], rest);
    } else {
      assert before + rest == rest;
    }
  }

  lemma {:induction false} TrailingPadded(rest: string, after: string)
    requires AllWhiteSpace(after)
    requires rest != [] ==> !IsWhiteSpace(rest[|rest| - 1])
    ensures TrailingWhiteSpace(rest + after) == |after|
  {
    if after != [] {
      var n := |rest + after|;
      assert (rest + after)[..n - 1] == rest + after[..|after| - 1];
      TrailingPadded(rest, after[..|after| - 1]);
    } else {
      assert rest + after == rest;
    }
  }

  /** Trimming twice is trimming once. */
  lemma TrimIdempotent(s: string)
    ensures Trim(Trim(s)) == Trim(s)
  {
    var r := Trim(s);
    TrimPadded([], r, []);
    assert [] + r + [] == r;
  }
}
