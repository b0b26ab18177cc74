/** The Python string operations the pipeline uses, on strings as sequences of characters. */
module Text {

  /** `sep.join(parts)`. */
  function Join(parts: seq<string>, sep: string): string
  {
    if |parts| == 0 then ""
    else if |parts| == 1 then parts[0]
    else parts[0] + sep + Join(parts[1..], sep)
  }

  /** How many times `c` occurs in `s`. */
  function Occurrences(s: string, c: char): nat {
    if |s| == 0 then 0 else (if s[0] == c then 1 else 0) + Occurrences(s[1..], c)
  }

  lemma {:induction false} OccursWhenCounted(s: string, c: char)
    ensures Occurrences(s, c) > 0 <==> c in s
  {
    if |s| > 0 {
      var tail := s[1..];
      assert s == [s[0]] + tail;
      OccursWhenCounted(tail, c);
    }
  }

  /** `s.split(sep)` for a one-character separator: the pieces between the occurrences
      of `sep`, empty pieces included. */
  function Split(s: string, sep: char): (parts: seq<string>)
    ensures |parts| == Occurrences(s, sep) + 1
    ensures forall i :: 0 <= i < |parts| ==> sep !in parts[i]
  {
    if |s| == 0 then [""]
    else
      assert s == [s[0]] + s[1..];
      if s[0] == sep then [""] + Split(s[1..], sep)
      else
        var rest := Split(s[1..], sep);
        [[s[0]] + rest[0]] + rest[1..]
  }

  lemma JoinCons(part: string, rest: seq<string>, sep: string)
    requires |rest| > 0
    ensures Join([part] + rest, sep) == part + sep + Join(rest, sep)
  {
    assert ([part] + rest)[1..] == rest;
  }

  /** Splitting and joining again with the same separator gives the string back. */
  lemma {:induction false} JoinSplit(s: string, sep: char)
    ensures Join(Split(s, sep), [sep]) == s
  {
    if |s| > 0 {
      JoinSplit(s[1..], sep);
      JoinSplitStep(s, sep);
    }
  }

  /** One character more in front of a string that splits and joins back. */
  lemma JoinSplitStep(s: string, sep: char)
    requires |s| > 0 && Join(Split(s[1..], sep), [sep]) == s[1..]
    ensures Join(Split(s, sep), [sep]) == s
  {
    if s[0] == sep {
      JoinSplitAtSep(s, sep);
    } else {
      JoinSplitInPart(s, sep);
    }
  }

  lemma JoinSplitAtSep(s: string, sep: char)
    requires |s| > 0 && s[0] == sep && Join(Split(s[1..], sep), [sep]) == s[1..]
    ensures Join(Split(s, sep), [sep]) == s
  {
    var tail := s[1..];
    assert s == [sep] + tail;
    var rest := Split(tail, sep);
    assert Join(rest, [sep]) == tail;
    assert Split(s, sep) == [""] + rest;
    JoinCons("", rest, [sep]);
  }

  lemma JoinSplitInPart(s: string, sep: char)
    requires |s| > 0 && s[0] != sep && Join(Split(s[1..], sep), [sep]) == s[1..]
    ensures Join(Split(s, sep), [sep]) == s
  {
    var c, tail := s[0], s[1..];
    assert s == [c] + tail;
    var rest := Split(tail, sep);
    assert Join(rest, [sep]) == tail;
    assert Split(s, sep) == [[c] + rest[0]] + rest[1..];
    JoinConsHead(c, rest, [sep]);
  }

  lemma JoinConsHead(c: char, parts: seq<string>, sep: string)
    requires |parts| > 0
    ensures Join([[c] + parts[0]] + parts[1..], sep) == [c] + Join(parts, sep)
  {
    if |parts| > 1 {
      assert parts == [parts[0]] + parts[1..];
      JoinCons([c] + parts[0], parts[1..], sep);
      JoinCons(parts[0], parts[1..], sep);
    } else {
      assert [[c] + parts[0]] + parts[1..] == [[c] + parts[0]];
    }
  }

  /** A character found in no part and not in the separator is not in the joined string. */
  lemma {:induction false} JoinAvoids(parts: seq<string>, sep: string, c: char)
    requires forall i :: 0 <= i < |parts| ==> c !in parts[i]
    requires c !in sep
    ensures c !in Join(parts, sep)
  {
    if |parts| > 1 {
      JoinAvoids(parts[1..], sep, c);
    }
  }

  /** `s.rstrip(chars)`: Python removes trailing characters that belong to the SET
      `chars`, not a suffix equal to `chars`. */
  function RStrip(s: string, chars: set<char>): (r: string)
    ensures r <= s
    ensures |r| > 0 ==> r[|r| - 1] !in chars
    ensures forall i :: |r| <= i < |s| ==> s[i] in chars
  {
    if |s| > 0 && s[|s| - 1] in chars then RStrip(s[..|s| - 1], chars) else s
  }

  /** The three facts about RStrip determine its result: any prefix with them is RStrip's. */
  lemma RStripUnique(s: string, chars: set<char>, t: string)
    requires t <= s
    requires |t| > 0 ==> t[|t| - 1] !in chars
    requires forall i :: |t| <= i < |s| ==> s[i] in chars
    ensures t == RStrip(s, chars)
  {
    var r := RStrip(s, chars);
    assert |t| > 0 ==> t[|t| - 1] == s[|t| - 1];
    assert |r| > 0 ==> r[|r| - 1] == s[|r| - 1];
  }

  /** The characters of a string, as a set (`set(s)` in Python). */
  function Chars(s: string): set<char> {
    set c | c in s
  }

  /** `sub` occurs in `s` starting at index `i`. */
  predicate OccursAt(s: string, sub: string, i: int) {
    0 <= i && i + |sub| <= |s| && s[i..i + |sub|] == sub
  }

  /** `sub in s` for strings: a substring test. */
  function Contains(s: string, sub: string): (b: bool)
    ensures b <==> exists i :: OccursAt(s, sub, i)
    decreases |s|
  {
    if |s| < |sub| then false
    else if s[..|sub|] == sub then
      assert OccursAt(s, sub, 0);
      true
    else
      var b := Contains(s[1..], sub);
      assert b ==> exists i :: OccursAt(s, sub, i) by {
        if b {
          var j :| OccursAt(s[1..], sub, j);
          assert s[1..][j..j + |sub|] == s[j + 1..j + 1 + |sub|];
          assert OccursAt(s, sub, j + 1);
        }
      }
      assert (exists i :: OccursAt(s, sub, i)) ==> b by {
        if exists i :: OccursAt(s, sub, i) {
          var i :| OccursAt(s, sub, i);
          assert i != 0;
          assert s[1..][i - 1..i - 1 + |sub|] == s[i..i + |sub|];
          assert OccursAt(s[1..], sub, i - 1);
        }
      }
      b
  }

  /** `s.replace("$", "\$")`: the Python literal "\$" is a backslash followed by a dollar. */
  function EscapeDollars(s: string): (r: string)
    ensures |r| == |s| + Occurrences(s, '$')
  {
    if |s| == 0 then ""
    else
      assert s == [s[0]] + s[1..];
      (if s[0] == '$' then "\\$" else [s[0]]) + EscapeDollars(s[1..])
  }

  /** Deletes the backslash in front of each dollar sign. */
  function UnescapeDollars(t: string): string
  {
    if |t| == 0 then ""
    else if |t| >= 2 && t[0] == '\\' && t[1] == '$' then "$" + UnescapeDollars(t[2..])
    else [t[0]] + UnescapeDollars(t[1..])
  }

  /** Escaping never produces a dollar sign at the front. */
  lemma {:induction false} EscapedStartsWithoutDollar(s: string)
    requires |s| > 0
    ensures |EscapeDollars(s)| > 0 && EscapeDollars(s)[0] != '$'
  {
  }

  /** Deleting the backslash before each dollar sign recovers the input. */
  lemma {:induction false} UnescapeEscape(s: string)
    ensures UnescapeDollars(EscapeDollars(s)) == s
  {
    if |s| > 0 {
      UnescapeEscape(s[1..]);
      UnescapeEscapeStep(s);
    }
  }

  lemma UnescapeEscapeStep(s: string)
    requires |s| > 0 && UnescapeDollars(EscapeDollars(s[1..])) == s[1..]
    ensures UnescapeDollars(EscapeDollars(s)) == s
  {
    var c, tail := s[0], s[1..];
    assert s == [c] + tail;
    var rest := EscapeDollars(tail);
    assert UnescapeDollars(rest) == tail;
    if c == '$' {
      assert EscapeDollars(s) == "\\$" + rest;
      UnescapeEscapedDollar(rest);
      assert UnescapeDollars(EscapeDollars(s)) == "$" + tail;
    } else {
      assert EscapeDollars(s) == [c] + rest;
      if |tail| > 0 {
        EscapedStartsWithoutDollar(tail);
      }
      UnescapePlain(c, rest);
      assert UnescapeDollars(EscapeDollars(s)) == [c] + tail;
    }
  }

  lemma UnescapeEscapedDollar(rest: string)
    ensures UnescapeDollars("\\$" + rest) == "$" + UnescapeDollars(rest)
  {
    assert ("\\$" + rest)[2..] == rest;
  }

  lemma UnescapePlain(c: char, rest: string)
    requires c != '\\' || |rest| == 0 || rest[0] != '$'
    ensures UnescapeDollars([c] + rest) == [c] + UnescapeDollars(rest)
  {
    assert ([c] + rest)[1..] == rest;
  }

  /** Every dollar sign of the result stands right after a backslash. */
  lemma {:induction false} EscapedDollarsArePreceded(s: string, i: nat)
    requires i < |EscapeDollars(s)| && EscapeDollars(s)[i] == '$'
    ensures i > 0 && EscapeDollars(s)[i - 1] == '\\'
  {
    var rest := EscapeDollars(s[1..]);
    if s[0] == '$' {
      assert EscapeDollars(s) == "\\$" + rest;
      if i >= 2 {
        EscapedDollarsArePreceded(s[1..], i - 2);
      }
    } else {
      assert EscapeDollars(s) == [s[0]] + rest;
      EscapedDollarsArePreceded(s[1..], i - 1);
    }
  }

  /** A string without a dollar sign is left as it is. */
  lemma {:induction false} EscapeWithoutDollar(s: string)
    requires '$' !in s
    ensures EscapeDollars(s) == s
  {
    if |s| > 0 {
      assert '$' !in s[1..] by {
        assert forall c :: c in s[1..] ==> c in s;
      }
      EscapeWithoutDollar(s[1..]);
      assert s == [s[0]] + s[1..];
    }
  }

  function LowerChar(c: char): char {
    if 'A' <= c <= 'Z' then (c as int + 32) as char else c
  }

  function UpperChar(c: char): char {
    if 'a' <= c <= 'z' then (c as int - 32) as char else c
  }

  /** `s.lower()`, for the ASCII letters. */
  function Lower(s: string): (r: string)
    ensures |r| == |s|
    ensures forall i :: 0 <= i < |s| ==> r[i] == LowerChar(s[i])
  {
    seq(|s|, i requires 0 <= i < |s| => LowerChar(s[i]))
  }

  /** Lowering a concatenation lowers each part. */
  lemma LowerConcat(a: string, b: string)
    ensures Lower(a + b) == Lower(a) + Lower(b)
  {
    assert forall i :: 0 <= i < |a + b| ==> Lower(a + b)[i] == (Lower(a) + Lower(b))[i];
  }

  /** Lowering a text with an inserted middle part lowers each of the three parts. */
  lemma LowerConcat3(a: string, b: string, c: string)
    ensures Lower(a + b + c) == Lower(a) + Lower(b) + Lower(c)
  {
    LowerConcat(a + b, c);
    LowerConcat(a, b);
  }

  /** The same, after an unchanged prefix. */
  lemma LowerConcat3After(p: string, a: string, b: string, c: string)
    ensures p + Lower(a + b + c) == p + Lower(a) + Lower(b) + Lower(c)
  {
    LowerConcat3(a, b, c);
    assert p + (Lower(a) + Lower(b) + Lower(c)) == p + Lower(a) + Lower(b) + Lower(c);
  }

  /** `s.capitalize()`: the first character upper case, the rest lower case (ASCII). */
  function Capitalize(s: string): (r: string)
    ensures |r| == |s|
    ensures |s| > 0 ==> r[0] == UpperChar(s[0])
    ensures forall i :: 0 < i < |s| ==> r[i] == LowerChar(s[i])
  {
    if |s| == 0 then "" else [UpperChar(s[0])] + Lower(s[1..])
  }

  /** Case mapping sends a character that is not a letter to itself. */
  lemma CaseMapKeepsUnderscore(s: string)
    requires '_' !in s
    ensures '_' !in Capitalize(s)
  {
    var r := Capitalize(s);
    forall i | 0 <= i < |r| ensures r[i] != '_' {
      assert s[i] in s;
    }
  }

  /** `s.rfind(c)`: the last index of `c` in `s`, or -1. */
  function LastIndex(s: string, c: char): (i: int)
    ensures -1 <= i < |s|
  {
    if |s| == 0 then -1 else if s[|s| - 1] == c then |s| - 1 else LastIndex(s[..|s| - 1], c)
  }

  /** The index found holds `c`, and no later index does; -1 means `c` does not occur. */
  lemma {:induction false} LastIndexFacts(s: string, c: char)
    ensures var i := LastIndex(s, c);
      && (i >= 0 ==> s[i] == c)
      && (forall j :: i < j < |s| ==> s[j] != c)
  {
    if |s| > 0 && s[|s| - 1] != c {
      var init := s[..|s| - 1];
      LastIndexFacts(init, c);
      assert forall j :: 0 <= j < |init| ==> init[j] == s[j];
    }
  }

  /** `os.path.splitext(p)` on POSIX paths: the extension starts at the last '.' of the
      last path component, unless only dots precede it in that component; the root is
      the rest. */
  function SplitExt(p: string): (string, string)
  {
    var slash := LastIndex(p, '/');
    var dot := LastIndex(p, '.');
    if dot > slash && exists k :: slash < k < dot && p[k] != '.' then
      (p[..dot], p[dot..])
    else (p, "")
  }

  /** Root and extension put together give the path back; a non-empty extension is one
      '.' followed by a text with no '.' and no '/'. */
  lemma SplitExtFacts(p: string)
    ensures var (root, ext) := SplitExt(p);
      && root + ext == p
      && (ext != "" ==> ext[0] == '.' && '.' !in ext[1..] && '/' !in ext)
  {
    LastIndexFacts(p, '/');
    LastIndexFacts(p, '.');
  }
}
