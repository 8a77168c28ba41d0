/** The two ways the bot cuts a chat line into pieces: Python's `str.split(sep)`
    with a one-character separator, and Python's argument-less `str.split()`,
    which splits on runs of whitespace and drops empty pieces. */
module Text {

  /** Python's `str.isspace` for a single character. */
  predicate IsSpace(c: char) {
    || ('\t' <= c <= '\r')
    || ('\U{1C}' <= c <= ' ')
    || c == '\U{85}' || c == '\U{A0}' || c == '\U{1680}'
    || ('\U{2000}' <= c <= '\U{200A}')
    || c == '\U{2028}' || c == '\U{2029}' || c == '\U{202F}'
    || c == '\U{205F}' || c == '\U{3000}'
  }

  predicate NoSpace(s: string) {
    forall i :: 0 <= i < |s| ==> !IsSpace(s[i])
  }

  /** The pieces glued back together with one separator between neighbours. */
  function JoinWith(parts: seq<string>, sep: char): string
    decreases |parts|
  {
    if |parts| == 0 then ""
    else if |parts| == 1 then parts[0]
    else parts[0] + [sep] + JoinWith(parts[1..], sep)
  }

  /** The pieces glued back together with nothing in between. */
  function Concat(parts: seq<string>): string
    decreases |parts|
  {
    if parts == [] then "" else parts[0] + Concat(parts[1..])
  }

  /** The non-whitespace characters of s, in order. */
  function Strip(s: string): string
    decreases |s|
  {
    if s == "" then "" else (if IsSpace(s[0]) then "" else [s[0]]) + Strip(s[1..])
  }

  /** Position of the first occurrence of c in s. */
  function IndexOf(s: string, c: char): (i: nat)
    requires c in s
    ensures i < |s| && s[i] == c
    ensures c !in s[..i]
    decreases |s|
  {
    if s[0] == c then 0 else 1 + IndexOf(s[1..], c)
  }

  /** Python's `s.split(sep)`: the pieces between the separators, empty pieces kept. */
  function SplitOn(s: string, sep: char): (parts: seq<string>)
    ensures |parts| >= 1
    ensures forall i :: 0 <= i < |parts| ==> sep !in parts[i]
    ensures JoinWith(parts, sep) == s
    decreases |s|
  {
    if sep !in s then [s]
    else
      var i := IndexOf(s, sep);
      var rest := SplitOn(s[i + 1..], sep);
      assert s == s[..i] + [sep] + s[i + 1..];
      assert ([s[..i]] + rest)[1..] == rest;
      [s[..i]] + rest
  }

  /** Python's `s.split(sep)[0]`: the text before the first separator. */
  function Head(s: string, sep: char): (h: string)
    ensures h <= s
    ensures sep !in h
    ensures |h| == |s| || s[|h|] == sep
  {
    SplitOn(s, sep)[0]
  }

  lemma {:induction false} IndexOfAfterPrefix(a: string, sep: char, b: string)
    requires sep !in a
    ensures IndexOf(a + [sep] + b, sep) == |a|
    decreases |a|
  {
    if a != "" {
      assert (a + [sep] + b)[1..] == a[1..] + [sep] + b;
      IndexOfAfterPrefix(a[1..], sep, b);
    }
  }

  lemma JoinCons(parts: seq<string>, sep: char)
    requires |parts| > 1
    ensures JoinWith(parts, sep) == parts[0] + [sep] + JoinWith(parts[1..], sep)
  {
  }

  /** Splitting a line that starts with a separator-free piece and a separator. */
  lemma SplitOnCons(a: string, sep: char, b: string)
    requires sep !in a
    ensures SplitOn(a + [sep] + b, sep) == [a] + SplitOn(b, sep)
  {
    var s := a + [sep] + b;
    assert s[|a|] == sep;
    IndexOfAfterPrefix(a, sep, b);
    assert s[..|a|] == a;
    assert s[|a| + 1..] == b;
  }

  /** Splitting undoes joining, for pieces that do not hold the separator. */
  lemma {:induction false} SplitJoin(parts: seq<string>, sep: char)
    requires |parts| >= 1
    requires forall i :: 0 <= i < |parts| ==> sep !in parts[i]
    ensures SplitOn(JoinWith(parts, sep), sep) == parts
    decreases |parts|
  {
    if |parts| > 1 {
      JoinCons(parts, sep);
      SplitOnCons(parts[0], sep, JoinWith(parts[1..], sep));
      SplitJoin(parts[1..], sep);
      assert parts == [parts[0]] + parts[1..];
    }
  }

  /** The longest prefix of s holding no whitespace. */
  function Word(s: string): (w: string)
    ensures w <= s
    ensures NoSpace(w)
    ensures |w| == |s| || IsSpace(s[|w|])
    decreases |s|
  {
    if s == "" || IsSpace(s[0]) then "" else [s[0]] + Word(s[1..])
  }

  /** Python's `s.split()`: the maximal whitespace-free runs of s, in order. */
  function Fields(s: string): (ws: seq<string>)
    ensures forall i :: 0 <= i < |ws| ==> ws[i] != "" && NoSpace(ws[i])
    ensures s != "" && !IsSpace(s[0]) ==> |ws| > 0 && ws[0] == Word(s)
    decreases |s|
  {
    if s == "" then []
    else if IsSpace(s[0]) then Fields(s[1..])
    else
      var w := Word(s);
      [w] + Fields(s[|w|..])
  }

  /** The words hold exactly the non-whitespace characters of s, in order. */
  lemma {:induction false} FieldsKeepText(s: string)
    ensures Concat(Fields(s)) == Strip(s)
    decreases |s|
  {
    if s != "" {
      if IsSpace(s[0]) {
        FieldsKeepText(s[1..]);
      } else {
        var w := Word(s);
        StripWord(s);
        FieldsKeepText(s[|w|..]);
        assert ([w] + Fields(s[|w|..]))[1..] == Fields(s[|w|..]);
      }
    }
  }

  lemma {:induction false} StripWord(s: string)
    ensures Strip(s) == Word(s) + Strip(s[|Word(s)|..])
    decreases |s|
  {
    if s != "" && !IsSpace(s[0]) {
      var t := s[1..];
      StripWord(t);
      var w := Word(t);
      assert Word(s) == [s[0]] + w;
      assert t[|w|..] == s[|Word(s)|..];
      calc {
        Strip(s);
        [s[0]] + Strip(t);
        [s[0]] + (w + Strip(t[|w|..]));
        ([s[0]] + w) + Strip(s[|Word(s)|..]);
      }
    }
  }

  lemma {:induction false} WordOfJoin(a: string, b: string)
    requires a != "" && NoSpace(a)
    requires b == "" || IsSpace(b[0])
    ensures Word(a + b) == a
    decreases |a|
  {
    assert (a + b)[1..] == a[1..] + b;
    if |a| > 1 {
      WordOfJoin(a[1..], b);
    } else {
      assert a[1..] + b == b;
    }
  }

  lemma FieldsWordFirst(w: string, rest: string)
    requires w != "" && NoSpace(w)
    requires rest == "" || IsSpace(rest[0])
    ensures Fields(w + rest) == [w] + Fields(rest)
  {
    WordOfJoin(w, rest);
    assert (w + rest)[|w|..] == rest;
  }

  lemma FieldsSpaceFirst(c: char, rest: string)
    requires IsSpace(c)
    ensures Fields([c] + rest) == Fields(rest)
  {
    assert ([c] + rest)[1..] == rest;
  }

  /** A single word splits into itself. */
  lemma FieldsOfWord(w: string)
    requires w != "" && NoSpace(w)
    ensures Fields(w) == [w]
  {
    assert w + "" == w;
    FieldsWordFirst(w, "");
  }

  /** A whitespace character right after a prefix ends the prefix's first word. */
  lemma {:induction false} WordPrefix(a: string, b: string)
    requires b != "" && IsSpace(b[0])
    ensures Word(a + b) == Word(a)
    decreases |a|
  {
    if a == "" {
      assert a + b == b;
    } else if !IsSpace(a[0]) {
      assert (a + b)[1..] == a[1..] + b;
      WordPrefix(a[1..], b);
    }
  }

  lemma FieldsAfterWord(a: string, r: string)
    requires a != "" && !IsSpace(a[0])
    requires r != "" && IsSpace(r[0])
    ensures Fields(a + r) == [Word(a)] + Fields(a[|Word(a)|..] + r)
  {
    var s := a + r;
    var w := Word(a);
    WordPrefix(a, r);
    assert s[0] == a[0];
    assert Word(s) == w;
    assert s[|w|..] == a[|w|..] + r;
    FieldsWordLead(s);
  }

  /** Fields of a line starting with a word: that word, then the rest. */
  lemma FieldsWordLead(a: string)
    requires a != "" && !IsSpace(a[0])
    ensures Fields(a) == [Word(a)] + Fields(a[|Word(a)|..])
  {
  }

  /** A whitespace character at the front of r ends the last word of a. */
  lemma {:induction false} FieldsBoundary(a: string, r: string)
    requires r != "" && IsSpace(r[0])
    ensures Fields(a + r) == Fields(a) + Fields(r)
    decreases |a|
  {
    if a == "" {
      assert a + r == r;
    } else if IsSpace(a[0]) {
      FieldsBoundary(a[1..], r);
      BoundarySpaceLead(a, r);
    } else {
      FieldsBoundary(a[|Word(a)|..], r);
      BoundaryWordLead(a, r);
    }
  }

  /** The step of `FieldsBoundary` past a leading whitespace character. */
  lemma BoundarySpaceLead(a: string, r: string)
    requires a != "" && IsSpace(a[0])
    requires Fields(a[1..] + r) == Fields(a[1..]) + Fields(r)
    ensures Fields(a + r) == Fields(a) + Fields(r)
  {
    var t := a[1..];
    HeadTail(a);
    ConsAppend(a[0], t, r);
    FieldsSpaceFirst(a[0], t);
    FieldsSpaceFirst(a[0], t + r);
  }

  /** The step of `FieldsBoundary` past a leading word. */
  lemma BoundaryWordLead(a: string, r: string)
    requires a != "" && !IsSpace(a[0])
    requires r != "" && IsSpace(r[0])
    requires Fields(a[|Word(a)|..] + r) == Fields(a[|Word(a)|..]) + Fields(r)
    ensures Fields(a + r) == Fields(a) + Fields(r)
  {
    var w := Word(a);
    var t := a[|w|..];
    FieldsAfterWord(a, r);
    FieldsWordLead(a);
    ConsAppend(w, Fields(t), Fields(r));
  }

  /** Sequence identities stated once, so the steps above need not prove them
      next to the definition of `Fields`. */
  lemma HeadTail<T>(s: seq<T>)
    requires s != []
    ensures s == [s[0]] + s[1..]
  {
  }

  lemma ConsAppend<T>(x: T, p: seq<T>, q: seq<T>)
    ensures [x] + (p + q) == ([x] + p) + q
  {
  }

  /** Any whitespace character is a word boundary: the words of a line split
      there are the words of the two sides. With `FieldsOfWord` and
      `Fields("") == []` this fixes `Fields` on every input, so its words are
      exactly the maximal whitespace-free runs. */
  lemma FieldsSplitAt(a: string, c: char, b: string)
    requires IsSpace(c)
    ensures Fields(a + [c] + b) == Fields(a) + Fields(b)
  {
    assert a + [c] + b == a + ([c] + b);
    FieldsBoundary(a, [c] + b);
    FieldsSpaceFirst(c, b);
  }

  /** Splitting on whitespace undoes joining with single spaces, for
      non-empty whitespace-free words. */
  lemma {:induction false} FieldsJoin(ws: seq<string>)
    requires forall i :: 0 <= i < |ws| ==> ws[i] != "" && NoSpace(ws[i])
    ensures Fields(JoinWith(ws, ' ')) == ws
    decreases |ws|
  {
    if |ws| == 1 {
      FieldsWordFirst(ws[0], "");
      assert ws[0] + "" == ws[0];
    } else if |ws| > 1 {
      var rest := JoinWith(ws[1..], ' ');
      JoinCons(ws, ' ');
      assert ws[0] + [' '] + rest == ws[0] + ([' '] + rest);
      FieldsWordFirst(ws[0], [' '] + rest);
      FieldsSpaceFirst(' ', rest);
      FieldsJoin(ws[1..]);
      assert ws == [ws[0]] + ws[1..];
    }
  }
}
