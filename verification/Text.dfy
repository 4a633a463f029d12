/** The string searches, splits and trims the modelled code calls. A character
    stands for one byte or one rune; every operation compares characters for equality. */
module Text {

  predicate OccursAt(s: string, pat: string, i: int) {
    0 <= i && i + |pat| <= |s| && s[i..i + |pat|] == pat
  }

  lemma OccursChar(s: string, pat: string, j: int, k: int)
    requires OccursAt(s, pat, j) && 0 <= k < |pat|
    ensures s[j + k] == pat[k]
  {
    assert s[j..j + |pat|][k] == pat[k];
  }

  /** Text behind an occurrence does not matter. */
  lemma OccursBefore(s: string, t: string, pat: string, j: int)
    requires j + |pat| <= |s|
    ensures OccursAt(s + t, pat, j) <==> OccursAt(s, pat, j)
  {
    if 0 <= j {
      assert (s + t)[j..j + |pat|] == s[j..j + |pat|];
    }
  }

  /** First index at or after `from` where `pat` occurs in `s`, or -1. */
  function IndexFrom(s: string, pat: string, from: nat): (r: int)
    requires from <= |s|
    ensures r == -1 || from <= r
    ensures r != -1 ==> OccursAt(s, pat, r)
    ensures forall j :: from <= j < (if r == -1 then |s| + 1 else r) ==> !OccursAt(s, pat, j)
    decreases |s| - from
  {
    if OccursAt(s, pat, from) then from
    else if from == |s| then -1
    else IndexFrom(s, pat, from + 1)
  }

  function Index(s: string, pat: string): (r: int)
    ensures r == -1 || OccursAt(s, pat, r)
    ensures r == -1 ==> forall j :: !OccursAt(s, pat, j)
    ensures forall j :: j < r ==> !OccursAt(s, pat, j)
  {
    IndexFrom(s, pat, 0)
  }

  predicate Contains(s: string, pat: string) {
    Index(s, pat) >= 0
  }

  /** An occurrence with nothing before it is the first one. */
  lemma IndexIs(s: string, pat: string, i: int)
    requires OccursAt(s, pat, i)
    requires forall j :: 0 <= j < i ==> !OccursAt(s, pat, j)
    ensures Index(s, pat) == i
  {
    var r := Index(s, pat);
    assert r != -1;
  }

  predicate HasSuffix(s: string, suffix: string) {
    |suffix| <= |s| && s[|s| - |suffix|..] == suffix
  }

  /** strings.TrimRight with the set {' ', '\t'}. */
  function TrimRightBlanks(s: string): (r: string)
    ensures r <= s
  {
    if s != [] && (s[|s| - 1] == ' ' || s[|s| - 1] == '\t') then TrimRightBlanks(s[..|s| - 1]) else s
  }

  /** unicode.IsSpace. */
  predicate IsSpace(c: char) {
    c == ' ' || '\t' <= c <= '\r' || c == '\U{0085}' || c == '\U{00A0}' || c == '\U{1680}'
    || '\U{2000}' <= c <= '\U{200A}' || c == '\U{2028}' || c == '\U{2029}' || c == '\U{202F}'
    || c == '\U{205F}' || c == '\U{3000}'
  }

  /** strings.TrimSpace. */
  function TrimSpace(s: string): string {
    if s == [] then s
    else if IsSpace(s[0]) then TrimSpace(s[1..])
    else if IsSpace(s[|s| - 1]) then TrimSpace(s[..|s| - 1])
    else s
  }

  predicate IsLower(c: char) {
    'a' <= c <= 'z'
  }

  predicate IsLowerOrDigit(c: char) {
    IsLower(c) || '0' <= c <= '9'
  }

  /** ^[a-z][a-z0-9-]{0,30}[a-z0-9]$, the rule for env names and user slugs. */
  predicate IsSlug(s: string) {
    && 2 <= |s| <= 32
    && IsLower(s[0])
    && IsLowerOrDigit(s[|s| - 1])
    && forall i :: 0 < i < |s| - 1 ==> IsLowerOrDigit(s[i]) || s[i] == '-'
  }

  /** strings.Join. */
  function Join(parts: seq<string>, sep: char): string {
    if parts == [] then ""
    else if |parts| == 1 then parts[0]
    else Join(parts[..|parts| - 1], sep) + [sep] + parts[|parts| - 1]
  }

  /** strings.Split by a one-character separator. */
  function Split(s: string, sep: char): (parts: seq<string>)
    ensures |parts| > 0
  {
    if s == [] then [""]
    else
      var rest := Split(s[..|s| - 1], sep);
      if s[|s| - 1] == sep then rest + [""]
      else rest[|rest| - 1 := rest[|rest| - 1] + [s[|s| - 1]]]
  }

  lemma {:induction false} SplitAppend(s: string, tail: string, sep: char)
    requires sep !in tail
    ensures var p := Split(s, sep); Split(s + tail, sep) == p[|p| - 1 := p[|p| - 1] + tail]
  {
    var p := Split(s, sep);
    if tail == [] {
      assert s + tail == s;
      assert p[|p| - 1] + tail == p[|p| - 1];
      assert p[|p| - 1 := p[|p| - 1]] == p;
    } else {
      var front, last := tail[..|tail| - 1], tail[|tail| - 1];
      assert tail == front + [last];
      SplitAppend(s, front, sep);
      var full := s + tail;
      assert full[..|full| - 1] == s + front;
      assert full[|full| - 1] == last;
      assert (p[|p| - 1] + front) + [last] == p[|p| - 1] + tail;
    }
  }

  /** Splitting undoes joining, when no part contains the separator. */
  lemma {:induction false} SplitJoin(parts: seq<string>, sep: char)
    requires parts != []
    requires forall p :: p in parts ==> sep !in p
    ensures Split(Join(parts, sep), sep) == parts
  {
    var last := parts[|parts| - 1];
    if |parts| == 1 {
      SplitOne(last, sep);
      assert parts == [last];
    } else {
      var front := parts[..|parts| - 1];
      SplitJoin(front, sep);
      JoinLast(front, last, sep);
      SplitLast(Join(front, sep), last, sep);
      assert parts == front + [last];
    }
  }

  lemma JoinLast(front: seq<string>, last: string, sep: char)
    requires front != []
    ensures Join(front + [last], sep) == Join(front, sep) + [sep] + last
  {
    assert (front + [last])[..|front|] == front;
  }

  lemma SplitOne(s: string, sep: char)
    requires sep !in s
    ensures Split(s, sep) == [s]
  {
    SplitAppend("", s, sep);
    assert "" + s == s;
  }

  lemma SplitLast(head: string, last: string, sep: char)
    requires sep !in last
    ensures Split(head + [sep] + last, sep) == Split(head, sep) + [last]
  {
    var s := head + [sep];
    assert s[..|s| - 1] == head;
    assert Split(s, sep) == Split(head, sep) + [""];
    SplitAppend(s, last, sep);
    assert "" + last == last;
  }

  /** The lines, each ended by a newline. */
  function Ended(lines: seq<string>): string {
    if lines == [] then "" else Ended(lines[..|lines| - 1]) + lines[|lines| - 1] + "\n"
  }

  lemma EndedLast(front: seq<string>, last: string)
    ensures Ended(front + [last]) == Ended(front) + last + "\n"
  {
    assert (front + [last])[..|front|] == front;
  }

  lemma {:induction false} EndedAppend(a: seq<string>, b: seq<string>)
    ensures Ended(a + b) == Ended(a) + Ended(b)
  {
    if b == [] {
      assert a + b == a;
    } else {
      var front, last := b[..|b| - 1], b[|b| - 1];
      EndedAppend(a, front);
      EndedLast(a + front, last);
      assert a + b == (a + front) + [last];
    }
  }

  lemma {:induction false} EndedIsJoin(lines: seq<string>)
    ensures Join(lines + [""], '\n') == Ended(lines)
  {
    if lines != [] {
      var front, last := lines[..|lines| - 1], lines[|lines| - 1];
      EndedIsJoin(front);
      JoinLast(lines, "", '\n');
      assert lines == front + [last];
      if front != [] {
        JoinLast(front, last, '\n');
        JoinLast(front, "", '\n');
      }
    }
  }

  /** Splitting gives the lines back. */
  lemma SplitEnded(lines: seq<string>)
    requires forall l :: l in lines ==> '\n' !in l
    ensures Split(Ended(lines), '\n') == lines + [""]
  {
    EndedIsJoin(lines);
    SplitJoin(lines + [""], '\n');
  }

  predicate AllSpace(s: string) {
    forall i :: 0 <= i < |s| ==> IsSpace(s[i])
  }

  /** What trimming leaves: the text between white space at both ends, with none at its own ends. */
  ghost predicate IsTrimmed(s: string, pre: string, r: string, post: string) {
    s == pre + r + post && AllSpace(pre) && AllSpace(post) && (r != "" ==> !IsSpace(r[0]) && !IsSpace(r[|r| - 1]))
  }

  lemma LongerPre(c: char, s: string, pre: string, r: string, post: string)
    requires IsTrimmed(s, pre, r, post) && IsSpace(c)
    ensures IsTrimmed([c] + s, [c] + pre, r, post)
  {
  }

  lemma LongerPost(c: char, s: string, pre: string, r: string, post: string)
    requires IsTrimmed(s, pre, r, post) && IsSpace(c)
    ensures IsTrimmed(s + [c], pre, r, post + [c])
  {
  }

  /** Trimming takes away white space at both ends, and all of it. */
  lemma {:induction false} TrimSpaceIs(s: string) returns (pre: string, post: string)
    ensures IsTrimmed(s, pre, TrimSpace(s), post)
  {
    pre, post := "", "";
    if s != [] && IsSpace(s[0]) {
      pre, post := TrimSpaceIs(s[1..]);
      LongerPre(s[0], s[1..], pre, TrimSpace(s[1..]), post);
      pre := [s[0]] + pre;
      assert s == [s[0]] + s[1..];
    } else if s != [] && IsSpace(s[|s| - 1]) {
      pre, post := TrimSpaceIs(s[..|s| - 1]);
      LongerPost(s[|s| - 1], s[..|s| - 1], pre, TrimSpace(s[..|s| - 1]), post);
      post := post + [s[|s| - 1]];
      assert s == s[..|s| - 1] + [s[|s| - 1]];
    }
  }

  lemma AsciiSpace(c: char)
    requires c < '\U{0080}'
    ensures IsSpace(c) <==> c in " \t\n\r\U{000B}\U{000C}"
  {
    var all := " \t\n\r\U{000B}\U{000C}";
    assert all[0] == ' ' && all[1] == '\t' && all[2] == '\n' && all[3] == '\r';
    assert all[4] == '\U{000B}' && all[5] == '\U{000C}';
  }

  /** Trimming on the right takes away spaces and tabs, and all of them. */
  lemma {:induction false} TrimRightBlanksIs(s: string) returns (blanks: string)
    ensures s == TrimRightBlanks(s) + blanks
    ensures forall i :: 0 <= i < |blanks| ==> blanks[i] == ' ' || blanks[i] == '\t'
    ensures var r := TrimRightBlanks(s); r != "" ==> r[|r| - 1] != ' ' && r[|r| - 1] != '\t'
  {
    blanks := "";
    if s != [] && (s[|s| - 1] == ' ' || s[|s| - 1] == '\t') {
      blanks := TrimRightBlanksIs(s[..|s| - 1]);
      blanks := blanks + [s[|s| - 1]];
      assert s == s[..|s| - 1] + [s[|s| - 1]];
    }
  }

  /** Joining undoes splitting, and no part of a split contains the separator. */
  lemma {:induction false} JoinSplit(s: string, sep: char)
    ensures Join(Split(s, sep), sep) == s
    ensures forall i :: 0 <= i < |Split(s, sep)| ==> sep !in Split(s, sep)[i]
  {
    if s != [] {
      var front, c := s[..|s| - 1], s[|s| - 1];
      var parts := Split(front, sep);
      JoinSplit(front, sep);
      assert s == front + [c];
      if c == sep {
        JoinLast(parts, "", sep);
      } else {
        JoinLonger(parts, c, sep);
      }
    }
  }

  lemma JoinLonger(parts: seq<string>, c: char, sep: char)
    requires parts != []
    ensures var n := |parts| - 1; Join(parts[n := parts[n] + [c]], sep) == Join(parts, sep) + [c]
  {
    var n := |parts| - 1;
    var longer := parts[n := parts[n] + [c]];
    assert longer[..n] == parts[..n];
    if n > 0 {
      JoinLast(parts[..n], parts[n], sep);
      JoinLast(parts[..n], parts[n] + [c], sep);
      assert parts == parts[..n] + [parts[n]];
      assert longer == parts[..n] + [parts[n] + [c]];
    }
  }

  lemma LetterIs(c: char)
    ensures IsLower(c) <==> c in "abcdefghijklmnopqrstuvwxyz"
  {
    var letters := "abcdefghijklmnopqrstuvwxyz";
    if 'a' <= c <= 'z' {
      assert letters[c as int - 'a' as int] == c;
    }
  }

  lemma DigitIs(c: char)
    ensures '0' <= c <= '9' <==> c in "0123456789"
  {
    var digits := "0123456789";
    if '0' <= c <= '9' {
      assert digits[c as int - '0' as int] == c;
    }
  }

  /** The rule for slugs in full: 2 to 32 of these characters, a letter first, no hyphen last. */
  lemma SlugIs(s: string)
    ensures IsSlug(s) <==>
      && 2 <= |s| <= 32
      && s[0] in "abcdefghijklmnopqrstuvwxyz"
      && (forall i :: 0 < i < |s| ==>
            s[i] in "abcdefghijklmnopqrstuvwxyz" || s[i] in "0123456789" || (s[i] == '-' && i < |s| - 1))
  {
    forall i | 0 <= i < |s|
      ensures IsLower(s[i]) <==> s[i] in "abcdefghijklmnopqrstuvwxyz"
      ensures '0' <= s[i] <= '9' <==> s[i] in "0123456789"
    {
      LetterIs(s[i]);
      DigitIs(s[i]);
    }
  }
}
