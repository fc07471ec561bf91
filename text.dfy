/** The handful of Python `str` operations the repository relies on, on
    strings as sequences of code points. */
module Text {

  /** `s.split(sep)` for a one-character separator: the pieces between
      separators, with empty pieces kept (`"".split(";") == [""]`). */
  function Split(s: string, sep: char): (parts: seq<string>)
    ensures |parts| >= 1
    ensures forall p :: p in parts ==> sep !in p
    decreases |s|
  {
    if s == [] then [[]]
    else
      var rest := Split(s[1..], sep);
      if s[0] == sep then [[]] + rest
      else [[s[0]] + rest[0]] + rest[1..]
  }

  /** There is one piece more than there are separators in `s`. */
  lemma {:induction false} SplitCount(s: string, sep: char)
    ensures |Split(s, sep)| == |s| - |Without(s, sep)| + 1
    decreases |s|
  {
    if s != [] {
      SplitCount(s[1..], sep);
    }
  }

  /** Every piece of `s.split(sep)` is made of characters of `s`. */
  lemma {:induction false} SplitPieceChars(s: string, sep: char, p: string)
    requires p in Split(s, sep)
    ensures forall c :: c in p ==> c in s
    decreases |s|
  {
    if s != [] && p != [] {
      var rest := Split(s[1..], sep);
      if s[0] == sep {
        SplitPieceChars(s[1..], sep, p);
      } else if p == [s[0]] + rest[0] {
        SplitPieceChars(s[1..], sep, rest[0]);
      } else {
        assert p in rest;
        SplitPieceChars(s[1..], sep, p);
      }
    }
  }

  /** `sep.join(parts)`, the inverse of `Split`. */
  function Join(parts: seq<string>, sep: char): string
    requires |parts| >= 1
    decreases |parts|
  {
    if |parts| == 1 then parts[0] else parts[0] + [sep] + Join(parts[1..], sep)
  }

  lemma {:induction false} JoinSplit(s: string, sep: char)
    ensures Join(Split(s, sep), sep) == s
    decreases |s|
  {
    if s != [] {
      var rest := Split(s[1..], sep);
      JoinSplit(s[1..], sep);
      if s[0] == sep {
        assert Split(s, sep)[1..] == rest;
      } else {
        JoinGrowsFirst(s[0], rest, sep);
        assert s == [s[0]] + s[1..];
      }
    }
  }

  /** Putting a character in front of the first part puts it in front of
      the joined string. */
  lemma JoinGrowsFirst(c: char, parts: seq<string>, sep: char)
    requires |parts| >= 1
    ensures Join([[c] + parts[0]] + parts[1..], sep) == [c] + Join(parts, sep)
  {
    var grown := [[c] + parts[0]] + parts[1..];
    if |parts| > 1 {
      assert grown[1..] == parts[1..];
    }
  }

  lemma {:induction false} SplitWord(w: string, sep: char)
    requires sep !in w
    ensures Split(w, sep) == [w]
    decreases |w|
  {
    if w != [] {
      SplitWord(w[1..], sep);
      assert w == [w[0]] + w[1..];
    }
  }

  lemma {:induction false} SplitAfterWord(w: string, t: string, sep: char)
    requires sep !in w
    ensures Split(w + [sep] + t, sep) == [w] + Split(t, sep)
    decreases |w|
  {
    var s := w + [sep] + t;
    if w == [] {
      assert s[1..] == t;
    } else {
      assert s[1..] == w[1..] + [sep] + t;
      SplitAfterWord(w[1..], t, sep);
      assert w == [w[0]] + w[1..];
    }
  }

  lemma {:induction false} SplitJoin(parts: seq<string>, sep: char)
    requires |parts| >= 1
    requires forall p :: p in parts ==> sep !in p
    ensures Split(Join(parts, sep), sep) == parts
    decreases |parts|
  {
    if |parts| == 1 {
      SplitWord(parts[0], sep);
    } else {
      SplitJoin(parts[1..], sep);
      SplitAfterWord(parts[0], Join(parts[1..], sep), sep);
      assert parts == [parts[0]] + parts[1..];
    }
  }

  /** `s.split(sep, 1)` when `sep` occurs in `s`: the text before the first
      separator and everything after it, later separators included. */
  function SplitOnce(s: string, sep: char): (kv: (string, string))
    requires sep in s
    ensures kv.0 + [sep] + kv.1 == s
    ensures sep !in kv.0
  {
    if s[0] == sep then ([], s[1..])
    else
      var r := SplitOnce(s[1..], sep);
      assert s == [s[0]] + s[1..];
      ([s[0]] + r.0, r.1)
  }

  /** In `a + [sep] + b` with no separator in `a`, the first separator
      sits at index `|a|`. */
  lemma FirstSeparatorAt(a: string, b: string, sep: char)
    requires sep !in a
    ensures (a + [sep] + b)[|a|] == sep
    ensures forall i :: 0 <= i < |a| ==> (a + [sep] + b)[i] != sep
  {
  }

  /** The split at the first separator is the only split whose left part
      holds no separator. */
  lemma FirstSeparatorUnique(a: string, b: string, a2: string, b2: string, sep: char)
    requires a + [sep] + b == a2 + [sep] + b2
    requires sep !in a && sep !in a2
    ensures a == a2 && b == b2
  {
    var s := a + [sep] + b;
    FirstSeparatorAt(a, b, sep);
    FirstSeparatorAt(a2, b2, sep);
    assert |a| == |a2|;
    assert a == s[..|a|] == a2;
    assert b == s[|a| + 1..] == b2;
  }

  /** `s.replace(c, "")`. */
  function Without(s: string, c: char): (r: string)
    ensures forall x :: x in r <==> x in s && x != c
    ensures |r| <= |s|
    ensures c !in s ==> r == s
    decreases |s|
  {
    if s == [] then []
    else if s[0] == c then Without(s[1..], c)
    else
      assert s == [s[0]] + s[1..];
      [s[0]] + Without(s[1..], c)
  }

  /** Removing a character distributes over concatenation, so the kept
      characters stay in their order and keep their multiplicity. */
  lemma {:induction false} WithoutConcat(a: string, b: string, c: char)
    ensures Without(a + b, c) == Without(a, c) + Without(b, c)
    decreases |a|
  {
    if a == [] {
      assert a + b == b;
    } else {
      var ab := a + b;
      assert ab[0] == a[0] && ab[1..] == a[1..] + b;
      WithoutConcat(a[1..], b, c);
      if a[0] == c {
        assert Without(ab, c) == Without(ab[1..], c);
        assert Without(a, c) == Without(a[1..], c);
      } else {
        assert Without(ab, c) == [a[0]] + Without(ab[1..], c);
        assert Without(a, c) == [a[0]] + Without(a[1..], c);
      }
    }
  }

  /** On one character, `replace(c, "")` drops it exactly when it is `c`. */
  lemma WithoutOne(x: char, c: char)
    ensures Without([x], c) == if x == c then [] else [x]
  {
    assert [x][1..] == [];
  }

  /** `"b.a".replace(".", "")` is `"ba"`. */
  lemma WithoutKeepsOrder()
    ensures Without("b.a", '.') == "ba"
  {
    WithoutConcat("b", ".a", '.');
    WithoutConcat(".", "a", '.');
    WithoutOne('b', '.');
    WithoutOne('.', '.');
    WithoutOne('a', '.');
  }

  /** `s.replace(a, b)` for single characters. */
  function ReplaceChar(s: string, a: char, b: char): (r: string)
    ensures |r| == |s|
    ensures forall i :: 0 <= i < |s| ==> r[i] == (if s[i] == a then b else s[i])
  {
    seq(|s|, i requires 0 <= i < |s| => if s[i] == a then b else s[i])
  }

  /** Leading characters that satisfy `drop` removed (`str.lstrip`). */
  function TrimLeft(s: string, drop: char -> bool): (r: string)
    ensures |r| <= |s| && r == s[|s| - |r|..]
    ensures r != [] ==> !drop(r[0])
    ensures forall i :: 0 <= i < |s| - |r| ==> drop(s[i])
    decreases |s|
  {
    if s != [] && drop(s[0]) then TrimLeft(s[1..], drop) else s
  }

  /** Trailing characters that satisfy `drop` removed (`str.rstrip`). */
  function TrimRight(s: string, drop: char -> bool): (r: string)
    ensures |r| <= |s| && r == s[..|r|]
    ensures r != [] ==> !drop(r[|r| - 1])
    ensures forall i :: |r| <= i < |s| ==> drop(s[i])
    decreases |s|
  {
    if s != [] && drop(s[|s| - 1]) then TrimRight(s[..|s| - 1], drop) else s
  }

  /** `str.strip`: both ends trimmed. */
  function Strip(s: string, drop: char -> bool): string
  {
    TrimRight(TrimLeft(s, drop), drop)
  }

  /** Stripping removes only characters that satisfy `drop`. */
  lemma StripKeeps(s: string, drop: char -> bool, c: char)
    requires c in s && !drop(c)
    ensures c in Strip(s, drop)
  {
    var l := TrimLeft(s, drop);
    var i :| 0 <= i < |s| && s[i] == c;
    var k := |s| - |l|;
    assert i >= k;
    assert l[i - k] == c;
    KeptByTrimRight(l, drop, i - k);
  }

  lemma KeptByTrimRight(l: string, drop: char -> bool, j: int)
    requires 0 <= j < |l| && !drop(l[j])
    ensures l[j] in TrimRight(l, drop)
  {
    var r := TrimRight(l, drop);
    assert j < |r|;
    assert r[j] == l[j];
  }

  /** `s` is `lead + mid + trail` with every character of `lead` and
      `trail` dropped and `mid` neither starting nor ending with one. */
  predicate Trimmed(s: string, lead: string, mid: string, trail: string, drop: char -> bool)
  {
    && s == lead + mid + trail
    && (forall i :: 0 <= i < |lead| ==> drop(lead[i]))
    && (forall i :: 0 <= i < |trail| ==> drop(trail[i]))
    && (mid != [] ==> !drop(mid[0]) && !drop(mid[|mid| - 1]))
  }

  /** What `TrimLeft` removes is a prefix of dropped characters. */
  lemma TrimLeftLead(s: string, drop: char -> bool) returns (lead: string)
    ensures s == lead + TrimLeft(s, drop)
    ensures forall i :: 0 <= i < |lead| ==> drop(lead[i])
  {
    var l := TrimLeft(s, drop);
    lead := s[..|s| - |l|];
    assert s == lead + l;
  }

  /** What `TrimRight` removes is a suffix of dropped characters. */
  lemma TrimRightTrail(s: string, drop: char -> bool) returns (trail: string)
    ensures s == TrimRight(s, drop) + trail
    ensures forall i :: 0 <= i < |trail| ==> drop(trail[i])
  {
    var m := TrimRight(s, drop);
    trail := s[|m|..];
    assert s == m + trail;
    forall i | 0 <= i < |trail| ensures drop(trail[i]) {
      assert trail[i] == s[|m| + i];
    }
  }

  lemma AppendAssoc(a: string, b: string, c: string)
    ensures a + b + c == a + (b + c)
  {
  }

  /** `Strip` removes exactly a leading and a trailing run of dropped
      characters; `lead` and `trail` are those runs. */
  lemma StripParts(s: string, drop: char -> bool) returns (lead: string, trail: string)
    ensures Trimmed(s, lead, Strip(s, drop), trail, drop)
  {
    var l := TrimLeft(s, drop);
    var m := TrimRight(l, drop);
    lead := TrimLeftLead(s, drop);
    trail := TrimRightTrail(l, drop);
    assert s == lead + l;
    assert l == m + trail;
    AppendAssoc(lead, m, trail);
    if m != [] {
      assert m[0] == l[0];
    }
  }

  /** The same, for callers that cannot bind the two runs. */
  lemma StripSplits(s: string, drop: char -> bool)
    ensures exists lead, trail :: Trimmed(s, lead, Strip(s, drop), trail, drop)
  {
    var lead, trail := StripParts(s, drop);
  }

  /** `s` ends with `tail`, right after a separator or from the start. */
  predicate EndsAfter(s: string, pre: string, tail: string, sep: char)
  {
    s == pre + tail && (pre == [] || pre[|pre| - 1] == sep)
  }

  function Last<T>(xs: seq<T>): T
    requires xs != []
  {
    xs[|xs| - 1]
  }

  /** `sep.join(parts)` ends with the last part, right after a separator. */
  lemma {:induction false} JoinEndsWithLast(parts: seq<string>, sep: char)
    requires |parts| >= 1
    ensures exists pre :: EndsAfter(Join(parts, sep), pre, Last(parts), sep)
    decreases |parts|
  {
    if |parts| == 1 {
      assert EndsAfter(Join(parts, sep), [], Last(parts), sep);
    } else {
      JoinEndsWithLast(parts[1..], sep);
      assert Last(parts[1..]) == Last(parts);
      var pre' :| EndsAfter(Join(parts[1..], sep), pre', Last(parts), sep);
      var pre := parts[0] + [sep] + pre';
      assert Join(parts, sep) == pre + Last(parts);
      assert EndsAfter(Join(parts, sep), pre, Last(parts), sep);
    }
  }

  /** The characters Python's `str.strip()` removes by default
      (`str.isspace`). */
  predicate IsSpace(c: char)
  {
    || ('\t' <= c <= '\r')
    || ('\U{1C}' <= c <= '\U{1F}')
    || c == ' ' || c == '\U{85}' || c == '\U{A0}' || c == '\U{1680}'
    || ('\U{2000}' <= c <= '\U{200A}')
    || c == '\U{2028}' || c == '\U{2029}' || c == '\U{202F}' || c == '\U{205F}'
    || c == '\U{3000}'
  }

  predicate StartsWith(s: string, prefix: string)
  {
    |prefix| <= |s| && s[..|prefix|] == prefix
  }

  /** Python's `sub in s`. */
  predicate Contains(s: string, sub: string)
    decreases |s|
  {
    StartsWith(s, sub) || (s != [] && Contains(s[1..], sub))
  }

  /** `sub` occurs in `s` starting at index `i`. */
  predicate OccursAt(s: string, sub: string, i: int)
  {
    0 <= i <= |s| - |sub| && s[i..i + |sub|] == sub
  }

  /** `sub in s` holds exactly when `sub` occurs at some position of `s`. */
  lemma {:induction false} ContainsAt(s: string, sub: string)
    ensures Contains(s, sub) <==> exists i :: OccursAt(s, sub, i)
    decreases |s|
  {
    if StartsWith(s, sub) {
      assert OccursAt(s, sub, 0);
    }
    if s != [] {
      ContainsAt(s[1..], sub);
      if Contains(s[1..], sub) {
        var i :| OccursAt(s[1..], sub, i);
        assert OccursAt(s, sub, i + 1);
      }
      if exists i :: OccursAt(s, sub, i) {
        var i :| OccursAt(s, sub, i);
        if i > 0 {
          assert OccursAt(s[1..], sub, i - 1);
        }
      }
    }
  }

  function LowerChar(c: char): char
  {
    if 'A' <= c <= 'Z' then (c as int + 32) as char else c
  }

  /** `s.lower()` restricted to ASCII letters. */
  function LowerAscii(s: string): (r: string)
    ensures |r| == |s|
    ensures forall i :: 0 <= i < |s| ==> r[i] == LowerChar(s[i])
  {
    seq(|s|, i requires 0 <= i < |s| => LowerChar(s[i]))
  }

  /** `template.format(u=u)` for templates whose only replacement field is
      `{u}` and that hold no other braces. */
  function FormatU(template: string, u: string): string
    decreases |template|
  {
    if |template| < 3 then template
    else if template[..3] == "{u}" then u + FormatU(template[3..], u)
    else [template[0]] + FormatU(template[1..], u)
  }

  /** A template that does not start with `{` keeps its first character. */
  lemma FormatStep(t: string, u: string)
    requires t != [] && t[0] != '{'
    ensures FormatU(t, u) == [t[0]] + FormatU(t[1..], u)
  {
    if |t| >= 3 {
      assert t[..3][0] == t[0];
    }
  }

  /** A template with one `{u}` field and no other braces formats to its
      text with the field replaced by `u`. */
  lemma {:induction false} FormatOneField(before: string, after: string, u: string)
    requires '{' !in before && '{' !in after
    ensures FormatU(before + "{u}" + after, u) == before + u + after
    decreases |before|
  {
    var t := before + "{u}" + after;
    if before == [] {
      assert t[..3] == "{u}" && t[3..] == after;
      FormatNoField(after, u);
    } else {
      assert t[0] == before[0] && t[1..] == before[1..] + "{u}" + after;
      FormatStep(t, u);
      FormatOneField(before[1..], after, u);
      assert before == [before[0]] + before[1..];
    }
  }

  lemma {:induction false} FormatNoField(t: string, u: string)
    requires '{' !in t
    ensures FormatU(t, u) == t
    decreases |t|
  {
    if t != [] {
      FormatStep(t, u);
      FormatNoField(t[1..], u);
      assert t == [t[0]] + t[1..];
    }
  }
}
