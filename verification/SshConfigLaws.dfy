/** The algebra of the managed block: last write wins, removal undoes insertion, text outside
    the markers is kept. Each law is stated with the exact condition under which it holds. */
module SshConfigLaws {
  import opened Text
  import opened SshConfig

  /** No field of the block contains the end marker. */
  predicate Clean(b: SSHConfigBlock) {
    !Contains(b.flexctlBinary, END) && !Contains(b.knownHosts, END)
  }

  /* ---- Where the markers are ---- */

  ghost predicate NoBegin(s: string) {
    forall j :: !OccursAt(s, BEGIN, j)
  }

  /** Text without a begin marker followed by one: that one is the first. */
  lemma FirstBegin(pre: string, rest: string)
    requires NoBegin(pre) && OccursAt(rest, BEGIN, 0)
    ensures Index(pre + rest, BEGIN) == |pre|
  {
    var s := pre + rest;
    assert s[|pre|..|pre| + |BEGIN|] == rest[0..|BEGIN|];
    forall j | 0 <= j < |pre| ensures !OccursAt(s, BEGIN, j) {
      if j + |BEGIN| <= |pre| {
        OccursBefore(pre, rest, BEGIN, j);
      } else if OccursAt(s, BEGIN, j) {
        OccursChar(s, BEGIN, j, |pre| - j);
        OccursChar(s, BEGIN, |pre|, 0);
        BeginHasOneHash(|pre| - j);
      }
    }
    IndexIs(s, BEGIN, |pre|);
  }

  /** A newline completes no begin marker. */
  lemma NewlineAddsNoBegin(s: string)
    requires NoBegin(s)
    ensures NoBegin(s + "\n")
  {
    forall j ensures !OccursAt(s + "\n", BEGIN, j) {
      if j + |BEGIN| <= |s| {
        OccursBefore(s, "\n", BEGIN, j);
      } else if OccursAt(s + "\n", BEGIN, j) {
        OccursChar(s + "\n", BEGIN, j, |BEGIN| - 1);
      }
    }
  }

  lemma PrefixHasNoBegin(x: string)
    requires Index(x, BEGIN) >= 0
    ensures NoBegin(x[..Index(x, BEGIN)])
  {
    var i := Index(x, BEGIN);
    assert x[..i] + x[i..] == x;
    forall j ensures !OccursAt(x[..i], BEGIN, j) {
      if j + |BEGIN| <= i {
        OccursBefore(x[..i], x[i..], BEGIN, j);
      }
    }
  }

  lemma SeparatedHasNoBegin(x: string)
    requires NoBegin(x)
    ensures NoBegin(Separated(x))
  {
    NewlineAddsNoBegin(x);
    NewlineAddsNoBegin(x + "\n");
  }

  /* ---- The first end marker of a block ---- */

  /** Lines begin with the first one. */
  lemma {:induction false} EndedBegins(lines: seq<string>)
    requires lines != []
    ensures lines[0] <= Ended(lines)
  {
    if |lines| > 1 {
      EndedBegins(lines[..|lines| - 1]);
    } else {
      assert Ended(lines[..0]) == "";
    }
  }

  lemma PrefixOccurs(p: string, s: string)
    requires p <= s
    ensures OccursAt(s, p, 0)
  {
  }

  lemma OpeningBegins(b: SSHConfigBlock, rest: string)
    ensures OccursAt(RenderBlock(b) + rest, BEGIN, 0)
  {
    var head := Ended(HEAD_LINES);
    EndedBegins(HEAD_LINES);
    assert head <= TOP <= Opening(b) <= RenderBlock(b) <= RenderBlock(b) + rest;
    PrefixOccurs(BEGIN, RenderBlock(b) + rest);
  }

  predicate NoAngle(s: string) {
    forall k :: 0 <= k < |s| ==> s[k] != '<'
  }

  lemma {:induction false} EndedHasNoAngle(lines: seq<string>)
    requires forall i :: 0 <= i < |lines| ==> NoAngle(lines[i])
    ensures NoAngle(Ended(lines))
  {
    if lines != [] {
      EndedHasNoAngle(lines[..|lines| - 1]);
    }
  }

  lemma NoticeHasNoAngle()
    ensures NoAngle(NOTICE)
  {
    var a, b, c := "# Managed by flexctl login. ", "Do not edit between markers; ", "changes will be overwritten.";
    assert NoAngle(a);
    assert NoAngle(b);
    assert NoAngle(c);
    assert NOTICE == a + b + c;
  }

  lemma TopHasNoAngle()
    ensures NoAngle(TOP)
  {
    NoticeHasNoAngle();
    assert NoAngle(HEAD_LINES[0]) && NoAngle(HEAD_LINES[2]) && NoAngle(HEAD_LINES[3]);
    EndedHasNoAngle(HEAD_LINES);
    assert NoAngle("    ProxyCommand ");
  }

  lemma OptionsHaveNoAngle()
    ensures NoAngle(Ended(OPTION_LINES))
  {
    assert NoAngle(OPTION_LINES[0]);
    assert NoAngle(OPTION_LINES[1]);
    assert NoAngle(OPTION_LINES[2]);
    assert NoAngle(OPTION_LINES[3]);
    EndedHasNoAngle(OPTION_LINES);
  }

  lemma MiddleHasNoAngle()
    ensures NoAngle(MIDDLE)
  {
    OptionsHaveNoAngle();
    assert NoAngle(" proxy %h %p\n");
    assert NoAngle("    UserKnownHostsFile ");
  }

  lemma EndLetters(k: int)
    requires 0 <= k < |END|
    ensures END[k] != '\n'
    ensures END[k] == ' ' ==> k + 1 < |END| && END[k + 1] != 'p'
    ensures k == 0 ==> END[k] == '#'
    ensures k == 2 ==> END[k] == '<'
  {
  }

  /** The text of a block up to the end marker, with the fixed parts left general. */
  function Parts(a: string, bin: string, m: string, kh: string, rest: string): string {
    a + bin + m + kh + ("\n" + END) + rest
  }

  predicate FixedParts(a: string, m: string) {
    && |a| >= 2 && |m| >= 2
    && NoAngle(a) && a[|a| - 1] != '#' && a[|a| - 2] != '#'
    && NoAngle(m) && m[|m| - 1] != '#' && m[|m| - 2] != '#' && m[0] == ' ' && m[1] == 'p'
  }

  /** The fields are s[p1..p2] and s[p3..p4]; the closing marker comes right after p4. Fixed text has no "<" and does
      not end with "#". */
  ghost predicate LaidOut(s: string, p1: nat, p2: nat, p3: nat, p4: nat) {
    && 2 <= p1 <= p2 <= p3 - 2 < p3 <= p4 && p4 + 1 + |END| <= |s|
    && (forall i :: 0 <= i < p1 || p2 <= i < p3 ==> s[i] != '<')
    && s[p1 - 1] != '#' && s[p1 - 2] != '#' && s[p3 - 1] != '#' && s[p3 - 2] != '#'
    && s[p2] == ' ' && s[p2 + 1] == 'p'
    && s[p4] == '\n' && OccursAt(s, END, p4 + 1)
  }

  /** The parts of a text, one after the other. */
  ghost predicate HasParts(s: string, a: string, bin: string, m: string, kh: string) {
    && OccursAt(s, a, 0)
    && OccursAt(s, bin, |a|)
    && OccursAt(s, m, |a| + |bin|)
    && OccursAt(s, kh, |a| + |bin| + |m|)
    && OccursAt(s, "\n" + END, |a| + |bin| + |m| + |kh|)
  }

  /** The text ends in a part, and so do all longer texts have it there. */
  lemma PartIn(x: string, y: string, s: string)
    requires x + y <= s
    ensures OccursAt(s, y, |x|)
  {
    var t := x + y;
    assert t[|x|..] == y;
    assert s[..|t|] == t;
    assert s[|x|..|x| + |y|] == t[|x|..|t|];
  }

  lemma PartsHaveParts(a: string, bin: string, m: string, kh: string, rest: string)
    ensures HasParts(Parts(a, bin, m, kh, rest), a, bin, m, kh)
  {
    var s := Parts(a, bin, m, kh, rest);
    assert a <= a + bin <= a + bin + m <= a + bin + m + kh <= a + bin + m + kh + ("\n" + END) <= s;
    PartIn("", a, s);
    PartIn(a, bin, s);
    PartIn(a + bin, m, s);
    PartIn(a + bin + m, kh, s);
    PartIn(a + bin + m + kh, "\n" + END, s);
  }

  lemma PartsAreLaidOut(s: string, a: string, bin: string, m: string, kh: string)
    requires FixedParts(a, m) && HasParts(s, a, bin, m, kh)
    ensures LaidOut(s, |a|, |a| + |bin|, |a| + |bin| + |m|, |a| + |bin| + |m| + |kh|)
  {
    var p2, p3, p4 := |a| + |bin|, |a| + |bin| + |m|, |a| + |bin| + |m| + |kh|;
    forall i | 0 <= i < |a| ensures s[i] == a[i] {
      OccursChar(s, a, 0, i);
    }
    forall i | p2 <= i < p3 ensures s[i] == m[i - p2] {
      OccursChar(s, m, p2, i - p2);
    }
    OccursChar(s, "\n" + END, p4, 0);
    assert s[p4 + 1..p4 + 1 + |END|] == s[p4..p4 + 1 + |END|][1..] == END;
  }

  /** An end marker that starts in a field ends in it, for what follows a field is in no end marker. */
  lemma EndStaysInField(s: string, lo: nat, hi: nat, j: int)
    requires lo <= j < hi && hi + 1 < |s| && OccursAt(s, END, j)
    requires s[hi] == '\n' || (s[hi] == ' ' && s[hi + 1] == 'p')
    ensures OccursAt(s[lo..hi], END, j - lo)
  {
    var k := hi - j;
    if k < |END| {
      EndLetters(k);
      OccursChar(s, END, j, k);
      assert s[hi] == END[k] == ' ';
      OccursChar(s, END, j, k + 1);
    }
    var field := s[lo..hi];
    assert j - lo + |END| <= |field|;
    forall i | 0 <= i < |END| ensures field[j - lo + i] == END[i] {
      OccursChar(s, END, j, i);
    }
    assert field[j - lo..j - lo + |END|] == END;
  }

  /** Where "#" and, two characters on, "<" can be before the closing marker. */
  lemma FixedTextHasNoMarker(s: string, p1: nat, p2: nat, p3: nat, p4: nat, j: nat)
    requires LaidOut(s, p1, p2, p3, p4)
    requires j <= p4 && j + 2 < |s| && s[j] == '#' && s[j + 2] == '<'
    ensures (p1 <= j && j + 2 < p2) || (p3 <= j && j + 2 < p4)
  {
    OccursChar(s, END, p4 + 1, 0);
  }

  /** An end marker that starts before the closing one lies within one of the two fields. */
  lemma EndLiesInField(s: string, p1: nat, p2: nat, p3: nat, p4: nat, j: int)
    requires LaidOut(s, p1, p2, p3, p4)
    requires OccursAt(s, END, j) && j <= p4
    ensures Contains(s[p1..p2], END) || Contains(s[p3..p4], END)
  {
    OccursChar(s, END, j, 0);
    OccursChar(s, END, j, 2);
    FixedTextHasNoMarker(s, p1, p2, p3, p4, j);
    if j < p2 {
      EndStaysInField(s, p1, p2, j);
    } else {
      EndStaysInField(s, p3, p4, j);
    }
  }

  lemma OccursInSlice(s: string, pat: string, lo: nat, hi: nat, i: int)
    requires lo <= hi <= |s| && OccursAt(s[lo..hi], pat, i)
    ensures OccursAt(s, pat, lo + i) && lo + i + |pat| <= hi
  {
    forall k | 0 <= k < |pat| ensures s[lo + i + k] == pat[k] {
      OccursChar(s[lo..hi], pat, i, k);
    }
    assert s[lo + i..lo + i + |pat|] == pat;
  }

  lemma FieldHoldsEnd(s: string, lo: nat, hi: nat)
    requires lo <= hi <= |s| && Contains(s[lo..hi], END)
    ensures Index(s, END) >= 0 && Index(s, END) < hi
  {
    OccursInSlice(s, END, lo, hi, Index(s[lo..hi], END));
  }

  /** The outer characters of a concatenation. */
  lemma OuterChars(first: string, inner: string, last: string)
    requires |first| >= 2 && |last| >= 2
    ensures var s := first + inner + last;
      && s[0] == first[0] && s[1] == first[1]
      && s[|s| - 1] == last[|last| - 1] && s[|s| - 2] == last[|last| - 2]
  {
  }

  lemma OuterEnd(first: string, last: string)
    requires |last| >= 2
    ensures var s := first + last; s[|s| - 1] == last[|last| - 1] && s[|s| - 2] == last[|last| - 2]
  {
  }

  lemma TopFixed()
    ensures |TOP| >= 2 && TOP[|TOP| - 1] == ' ' && TOP[|TOP| - 2] == 'd'
  {
    OuterEnd(Ended(HEAD_LINES), "    ProxyCommand ");
  }

  lemma MiddleFixed()
    ensures |MIDDLE| >= 2 && MIDDLE[0] == ' ' && MIDDLE[1] == 'p' && MIDDLE[|MIDDLE| - 1] == ' ' &&
      MIDDLE[|MIDDLE| - 2] == 'e'
  {
    OuterChars(" proxy %h %p\n", Ended(OPTION_LINES), "    UserKnownHostsFile ");
  }

  lemma TopAndMiddleFixed()
    ensures FixedParts(TOP, MIDDLE)
  {
    TopHasNoAngle();
    MiddleHasNoAngle();
    TopFixed();
    MiddleFixed();
  }

  lemma FirstEndOfLayout(s: string, p1: nat, p2: nat, p3: nat, p4: nat)
    requires LaidOut(s, p1, p2, p3, p4)
    ensures 0 <= Index(s, END) <= p4 + 1
    ensures Index(s, END) == p4 + 1 <==> !Contains(s[p1..p2], END) && !Contains(s[p3..p4], END)
  {
    var i := Index(s, END);
    if i <= p4 {
      EndLiesInField(s, p1, p2, p3, p4, i);
    } else if Contains(s[p1..p2], END) {
      FieldHoldsEnd(s, p1, p2);
    } else if Contains(s[p3..p4], END) {
      FieldHoldsEnd(s, p3, p4);
    }
  }

  lemma FirstEndOfText(s: string, a: string, bin: string, m: string, kh: string)
    requires FixedParts(a, m) && HasParts(s, a, bin, m, kh)
    ensures var i, p4 := Index(s, END), |a| + |bin| + |m| + |kh|;
      0 <= i <= p4 + 1 && (i == p4 + 1 <==> !Contains(bin, END) && !Contains(kh, END))
  {
    var p2, p3, p4 := |a| + |bin|, |a| + |bin| + |m|, |a| + |bin| + |m| + |kh|;
    PartsAreLaidOut(s, a, bin, m, kh);
    assert s[|a|..p2] == bin && s[p3..p4] == kh;
    FirstEndOfLayout(s, |a|, p2, p3, p4);
  }

  lemma FirstEndOfParts(a: string, bin: string, m: string, kh: string, rest: string)
    requires FixedParts(a, m)
    ensures var i, p4 := Index(Parts(a, bin, m, kh, rest), END), |a| + |bin| + |m| + |kh|;
      0 <= i <= p4 + 1 && (i == p4 + 1 <==> !Contains(bin, END) && !Contains(kh, END))
  {
    PartsHaveParts(a, bin, m, kh, rest);
    FirstEndOfText(Parts(a, bin, m, kh, rest), a, bin, m, kh);
  }

  lemma AsParts(a: string, bin: string, m: string, kh: string, rest: string)
    ensures (a + bin + m + kh + "\n") + END + "\n" + rest == Parts(a, bin, m, kh, "\n" + rest)
    ensures |a + bin + m + kh + "\n"| == |a| + |bin| + |m| + |kh| + 1
  {
  }

  /** In a block followed by any text, the first end marker is the closing one exactly if the fields are clean;
      otherwise it comes earlier. */
  lemma FirstEnd(b: SSHConfigBlock, rest: string)
    ensures var i := Index(RenderBlock(b) + rest, END);
      0 <= i <= |Opening(b)| && (i == |Opening(b)| <==> Clean(b))
  {
    TopAndMiddleFixed();
    AsParts(TOP, b.flexctlBinary, MIDDLE, b.knownHosts, rest);
    FirstEndOfParts(TOP, b.flexctlBinary, MIDDLE, b.knownHosts, "\n" + rest);
  }

  /* ---- What a block says ---- */

  /** The lines of a block: who may log in and how to get there, by way of the binary and with the known hosts. */
  function BlockLines(b: SSHConfigBlock): seq<string> {
    ["# >>> flexctl >>>",
     "# Managed by flexctl login. " + "Do not edit between markers; " + "changes will be overwritten.",
     "Host *.flex",
     "    User dev",
     "    ProxyCommand " + b.flexctlBinary + " proxy %h %p",
     "    ServerAliveInterval 30",
     "    ServerAliveCountMax 3",
     "    ConnectTimeout 30",
     "    StrictHostKeyChecking accept-new",
     "    UserKnownHostsFile " + b.knownHosts,
     "# <<< flexctl <<<"]
  }

  lemma TwoLines(head: seq<string>, a: string, bin: string, z: string, options: seq<string>, h: string,
                 kh: string, end: string)
    ensures Ended(head + [a + bin + z] + options + [h + kh] + [end]) ==
      (Ended(head) + a) + bin + (z + "\n" + Ended(options) + h) + kh + "\n" + end + "\n"
  {
    EndedLast(head + [a + bin + z] + options + [h + kh], end);
    EndedLast(head + [a + bin + z] + options, h + kh);
    EndedAppend(head + [a + bin + z], options);
    EndedLast(head, a + bin + z);
  }

  /** A block is its lines. */
  lemma BlockIsLines(b: SSHConfigBlock)
    ensures RenderBlock(b) == Ended(BlockLines(b))
  {
    TwoLines(HEAD_LINES, "    ProxyCommand ", b.flexctlBinary, " proxy %h %p", OPTION_LINES, "    UserKnownHostsFile ",
             b.knownHosts, END);
    LinesByPart(b);
    assert " proxy %h %p" + "\n" == " proxy %h %p\n";
  }

  predicate OneLine(s: string) {
    '\n' !in s
  }

  lemma HeadIsOneLine()
    ensures forall l :: l in HEAD_LINES ==> OneLine(l)
  {
    assert OneLine("# Managed by flexctl login. ") && OneLine("Do not edit between markers; ");
    assert OneLine(BEGIN) && OneLine(NOTICE) && OneLine("Host *.flex") && OneLine("    User dev");
  }

  lemma OptionsAreOneLine()
    ensures forall l :: l in OPTION_LINES ==> OneLine(l)
  {
    assert OneLine("    ServerAliveInterval 30") && OneLine("    ServerAliveCountMax 3");
    assert OneLine("    ConnectTimeout 30") && OneLine("    StrictHostKeyChecking accept-new");
  }

  lemma LinesByPart(b: SSHConfigBlock)
    ensures BlockLines(b) == HEAD_LINES + ["    ProxyCommand " + b.flexctlBinary + " proxy %h %p"] + OPTION_LINES +
                             ["    UserKnownHostsFile " + b.knownHosts] + [END]
  {
  }

  lemma LinesAreOneLine(b: SSHConfigBlock)
    requires OneLine(b.flexctlBinary) && OneLine(b.knownHosts)
    ensures forall l :: l in BlockLines(b) ==> OneLine(l)
  {
    HeadIsOneLine();
    OptionsAreOneLine();
    LinesByPart(b);
    assert OneLine("    ProxyCommand ") && OneLine(" proxy %h %p") && OneLine("    UserKnownHostsFile ") &&
      OneLine(END);
  }

  /** The lines of a block whose fields have no newline, exactly. */
  lemma BlockSays(b: SSHConfigBlock)
    requires OneLine(b.flexctlBinary) && OneLine(b.knownHosts)
    ensures Split(RenderBlock(b), '\n') == BlockLines(b) + [""]
  {
    BlockIsLines(b);
    LinesAreOneLine(b);
    SplitEnded(BlockLines(b));
  }

  lemma InnerInjective(p: string, a: string, b: string, t: string)
    requires p + a + t == p + b + t
    ensures a == b
  {
    var s := p + a + t;
    assert |a| == |b|;
    assert a == s[|p|..|p| + |a|] && b == s[|p|..|p| + |a|];
  }

  /** Such blocks are the same exactly if both fields are. */
  lemma BlocksEqualIff(b1: SSHConfigBlock, b2: SSHConfigBlock)
    requires OneLine(b1.flexctlBinary) && OneLine(b1.knownHosts) && OneLine(b2.flexctlBinary) && OneLine(b2.knownHosts)
    ensures RenderBlock(b1) == RenderBlock(b2) <==> b1 == b2
  {
    BlockSays(b1);
    BlockSays(b2);
    if RenderBlock(b1) == RenderBlock(b2) {
      var l1, l2 := BlockLines(b1), BlockLines(b2);
      assert l1 == (l1 + [""])[..11] && l2 == (l2 + [""])[..11];
      assert l1[4] == l2[4] && l1[9] == l2[9];
      InnerInjective("    ProxyCommand ", b1.flexctlBinary, b2.flexctlBinary, " proxy %h %p");
      InnerInjective("    UserKnownHostsFile ", b1.knownHosts, b2.knownHosts, "");
      assert l1[9] == "    UserKnownHostsFile " + b1.knownHosts + "";
      assert l2[9] == "    UserKnownHostsFile " + b2.knownHosts + "";
    }
  }

  /* ---- What an edit makes of a file ---- */

  /** The text before the managed block: for a file without one, what precedes an appended block. */
  function Before(x: string): string {
    if Contains(x, BEGIN) then x[..Index(x, BEGIN)] else Separated(x)
  }

  /** The text after the first block. */
  function Behind(x: string): string {
    if Closed(x) then x[BlockEnd(x)..] else ""
  }

  lemma BeforeHasNoBegin(x: string)
    ensures NoBegin(Before(x))
  {
    if Contains(x, BEGIN) {
      PrefixHasNoBegin(x);
    } else {
      SeparatedHasNoBegin(x);
    }
  }

  /** Trimming stops at a newline. */
  lemma {:induction false} TrimAfterNewline(head: string, tail: string)
    requires head != "" && head[|head| - 1] == '\n'
    ensures TrimRightBlanks(head + tail) == head + TrimRightBlanks(tail)
  {
    if tail == "" {
      assert head + tail == head;
    } else {
      var s := head + tail;
      assert s[|s| - 1] == tail[|tail| - 1];
      assert s[..|s| - 1] == head + tail[..|tail| - 1];
      TrimAfterNewline(head, tail[..|tail| - 1]);
      assert TrimRightBlanks(tail) == tail ==> head + TrimRightBlanks(tail) == s;
    }
  }

  lemma {:induction false} TrimTwice(s: string)
    ensures TrimRightBlanks(TrimRightBlanks(s)) == TrimRightBlanks(s)
  {
    if s != "" && (s[|s| - 1] == ' ' || s[|s| - 1] == '\t') {
      TrimTwice(s[..|s| - 1]);
    }
  }

  /* ---- Blocks as such ---- */

  predicate EndsWithNewline(s: string) {
    s != "" && s[|s| - 1] == '\n'
  }

  predicate NewlineTerminated(x: string) {
    x == "" || EndsWithNewline(x)
  }

  /** Text that begins with a begin marker, has an end marker that is not its very end, and ends with a newline. */
  predicate BlockLike(block: string) {
    && OccursAt(block, BEGIN, 0)
    && Index(block, END) >= 0 && Index(block, END) + |END| < |block|
    && EndsWithNewline(block)
  }

  /** What lies behind the first end marker of a block and one newline: nothing, unless that marker comes too early. */
  function Leftover(block: string): string
    requires BlockLike(block)
  {
    var end := Index(block, END) + |END|;
    if block[end] == '\n' then block[end + 1..] else block[end..]
  }

  lemma RenderedBlock(b: SSHConfigBlock)
    ensures BlockLike(RenderBlock(b))
    ensures Leftover(RenderBlock(b)) == "" <==> Clean(b)
  {
    var block, opening := RenderBlock(b), Opening(b);
    OpeningBegins(b, "");
    FirstEnd(b, "");
    assert block + "" == block;
    BlockTail(opening, END);
    var i := Index(block, END);
    if i == |opening| {
      assert block[i + |END|] == '\n';
    }
  }

  lemma BlockTail(opening: string, end: string)
    ensures var s := opening + end + "\n"; |s| == |opening| + |end| + 1 && s[|s| - 1] == '\n'
  {
  }

  lemma LeftoverEndsWithNewline(block: string)
    requires BlockLike(block) && Leftover(block) != ""
    ensures EndsWithNewline(Leftover(block))
  {
  }

  lemma LeftoverForm(block: string)
    requires BlockLike(block)
    ensures NewlineTerminated(Leftover(block))
  {
    if Leftover(block) != "" {
      LeftoverEndsWithNewline(block);
    }
  }

  /** Text behind does not change where the first occurrence is. */
  lemma SameFirst(s: string, post: string, pat: string)
    requires Index(s, pat) >= 0
    ensures Index(s + post, pat) == Index(s, pat)
  {
    var i := Index(s, pat);
    forall j | j <= i ensures OccursAt(s + post, pat, j) <==> OccursAt(s, pat, j) {
      OccursBefore(s, post, pat, j);
    }
    IndexIs(s + post, pat, i);
  }

  lemma FirstBlock(pre: string, block: string, post: string)
    requires NoBegin(pre) && OccursAt(block, BEGIN, 0)
    ensures Index(pre + block + post, BEGIN) == |pre|
  {
    OccursBefore(block, post, BEGIN, 0);
    FirstBegin(pre, block + post);
    assert pre + block + post == pre + (block + post);
  }

  lemma Slices(pre: string, block: string, post: string, k: nat)
    requires k <= |block|
    ensures var x := pre + block + post;
      && x[..|pre|] == pre && x[|pre|..] == block + post
      && x[|pre| + k..] == block[k..] + post && (k < |block| ==> x[|pre| + k] == block[k])
  {
  }

  /** Where the first block of an edited file is, and what is around it. */
  lemma BlockPlace(pre: string, block: string, post: string)
    requires NoBegin(pre) && BlockLike(block)
    ensures var x := pre + block + post;
      Closed(x) && Index(x, BEGIN) == |pre| && x[..|pre|] == pre && x[BlockEnd(x)..] == Leftover(block) + post
  {
    var x, end := pre + block + post, Index(block, END) + |END|;
    FirstBlock(pre, block, post);
    SameFirst(block, post, END);
    Slices(pre, block, post, end);
    Slices(pre, block, post, end + 1);
    assert BlockEnd(x) == |pre| + if block[end] == '\n' then end + 1 else end;
  }

  /** Text outside the markers is kept: writing a block yields the text before, the new block, and the text
      behind up to trailing blanks. */
  lemma WriteKeepsOutside(x: string, block: string)
    requires !Unclosed(x) && BlockLike(block)
    ensures WithBlock(x, block) == Before(x) + block + TrimRightBlanks(Behind(x))
  {
    var head, tail := Before(x) + block, Behind(x);
    assert head[|head| - 1] == block[|block| - 1];
    if Contains(x, BEGIN) {
      assert Closed(x);
      TrimAfterNewline(head, tail);
    } else {
      assert head + "" == head;
    }
  }

  /** An upsert keeps the text outside the markers, and the first begin marker stays where it was. */
  lemma UpsertKeepsOutside(x: string, b: SSHConfigBlock)
    requires !Unclosed(x)
    ensures Upserted(x, b) == Before(x) + RenderBlock(b) + TrimRightBlanks(Behind(x))
    ensures Index(Upserted(x, b), BEGIN) == |Before(x)|
  {
    RenderedBlock(b);
    WriteKeepsOutside(x, RenderBlock(b));
    BeforeHasNoBegin(x);
    BlockPlace(Before(x), RenderBlock(b), TrimRightBlanks(Behind(x)));
  }

  /** The block in a file after an upsert: from the first begin marker to past the first end marker, its lines are
      those of the block just written. */
  lemma UpsertedBlockSays(x: string, b: SSHConfigBlock)
    requires !Unclosed(x) && Clean(b) && OneLine(b.flexctlBinary) && OneLine(b.knownHosts)
    ensures var y := Upserted(x, b);
      Closed(y) && Split(y[Index(y, BEGIN)..BlockEnd(y)], '\n') == BlockLines(b) + [""]
  {
    var pre, block, post := Before(x), RenderBlock(b), TrimRightBlanks(Behind(x));
    UpsertKeepsOutside(x, b);
    BeforeHasNoBegin(x);
    RenderedBlock(b);
    BlockPlace(pre, block, post);
    WholeBlock(pre, block, post);
    BlockSays(b);
  }

  lemma WholeBlock(pre: string, block: string, post: string)
    requires NoBegin(pre) && BlockLike(block) && Leftover(block) == ""
    ensures var y := pre + block + post; Closed(y) && y[Index(y, BEGIN)..BlockEnd(y)] == block
  {
    var y := pre + block + post;
    BlockPlace(pre, block, post);
    assert y[BlockEnd(y)..] == post;
    assert BlockEnd(y) == |pre| + |block|;
  }

  /** A file whose begin marker is never closed is left alone. */
  lemma UnclosedStays(x: string, block: string)
    requires Unclosed(x)
    ensures WithBlock(x, block) == x && Removed(x) == x
  {
  }

  /* ---- Last write wins ---- */

  lemma RewriteForm(x: string, block1: string, block2: string)
    requires !Unclosed(x) && BlockLike(block1) && BlockLike(block2)
    ensures WithBlock(WithBlock(x, block1), block2) ==
      Before(x) + block2 + TrimRightBlanks(Leftover(block1) + TrimRightBlanks(Behind(x)))
  {
    var pre, tail := Before(x), TrimRightBlanks(Behind(x));
    WriteKeepsOutside(x, block1);
    BeforeHasNoBegin(x);
    BlockPlace(pre, block1, tail);
    var y := pre + block1 + tail;
    WriteKeepsOutside(y, block2);
  }

  lemma LeftoverShows(pre: string, rest: string, tail: string)
    requires NewlineTerminated(rest) && TrimRightBlanks(tail) == tail
    ensures pre + TrimRightBlanks(rest + tail) == pre + tail <==> rest == ""
  {
    if rest == "" {
      assert rest + tail == tail;
    } else {
      TrimAfterNewline(rest, tail);
    }
  }

  lemma SecondWriteIff(x: string, block1: string, block2: string)
    requires !Unclosed(x) && BlockLike(block1) && BlockLike(block2)
    ensures WithBlock(WithBlock(x, block1), block2) == WithBlock(x, block2) <==> Leftover(block1) == ""
  {
    RewriteForm(x, block1, block2);
    WriteKeepsOutside(x, block2);
    TrimTwice(Behind(x));
    LeftoverForm(block1);
    LeftoverShows(Before(x) + block2, Leftover(block1), TrimRightBlanks(Behind(x)));
  }

  /** Writing b1 and then b2 is writing b2, for every file and all blocks, exactly if b1's fields do not
      contain the end marker, or the file has a begin marker that is never closed and is left alone. */
  lemma LastWriteWinsIff(x: string, b1: SSHConfigBlock, b2: SSHConfigBlock)
    ensures Upserted(Upserted(x, b1), b2) == Upserted(x, b2) <==> Clean(b1) || Unclosed(x)
  {
    if Unclosed(x) {
      UnclosedStays(x, RenderBlock(b1));
    } else {
      RenderedBlock(b1);
      RenderedBlock(b2);
      SecondWriteIff(x, RenderBlock(b1), RenderBlock(b2));
    }
  }

  /* ---- Removal undoes insertion ---- */

  lemma RemovalForm(pre: string, block: string, post: string)
    requires NoBegin(pre) && BlockLike(block)
    ensures var rest := Leftover(block) + post;
      Removed(pre + block + post) == TrimRightBlanks(Closing(pre, rest) + rest)
  {
    BlockPlace(pre, block, post);
  }

  lemma RemovalAtEnd(pre: string, block: string)
    requires NoBegin(pre) && BlockLike(block)
    ensures Removed(pre + block) == TrimRightBlanks(Closing(pre, Leftover(block)) + Leftover(block))
  {
    RemovalForm(pre, block, "");
    assert pre + block + "" == pre + block;
    assert Leftover(block) + "" == Leftover(block);
  }

  /** The text without the newline at its end, if it has one. */
  function Unended(s: string): string {
    if EndsWithNewline(s) then s[..|s| - 1] else s
  }

  lemma ClosingForm(pre: string, rest: string)
    requires NewlineTerminated(rest)
    ensures TrimRightBlanks(Closing(pre, rest) + rest) ==
      if rest != "" then pre + rest
      else TrimRightBlanks(Unended(pre))
  {
    NewlineSuffix(pre);
    if rest == "" {
      assert Closing(pre, rest) == Unended(pre);
      assert Unended(pre) + "" == Unended(pre);
    } else {
      assert Closing(pre, rest) == pre;
      TrimNothing(pre + rest);
    }
  }

  lemma TrimNothing(s: string)
    requires EndsWithNewline(s)
    ensures TrimRightBlanks(s) == s
  {
  }

  /** Removing a block that stands alone at the end of a file. */
  lemma RemoveLast(pre: string, block: string)
    requires NoBegin(pre) && BlockLike(block)
    ensures Removed(pre + block) ==
      if Leftover(block) != "" then pre + Leftover(block)
      else TrimRightBlanks(Unended(pre))
  {
    RemovalAtEnd(pre, block);
    LeftoverForm(block);
    ClosingForm(pre, Leftover(block));
  }

  /** What an appended block is separated by. */
  lemma SeparatedForm(x: string)
    ensures |Separated(x)| >= |x|
    ensures TrimRightBlanks(Unended(Separated(x))) == if NewlineTerminated(x) then x else x + "\n"
  {
    NewlineSuffix(x);
    if x != "" {
      var pre, out := Separated(x), if EndsWithNewline(x) then x else x + "\n";
      assert EndsWithNewline(pre) && pre[..|pre| - 1] == out;
      assert EndsWithNewline(out);
    }
  }

  lemma RemoveWrittenIff(x: string, block: string)
    requires !Contains(x, BEGIN) && BlockLike(block)
    ensures Removed(WithBlock(x, block)) == x <==> Leftover(block) == "" && NewlineTerminated(x)
    ensures Leftover(block) == "" && !NewlineTerminated(x) ==> Removed(WithBlock(x, block)) == x + "\n"
  {
    var pre := Separated(x);
    SeparatedHasNoBegin(x);
    SeparatedForm(x);
    RemoveLast(pre, block);
    assert WithBlock(x, block) == pre + block;
  }

  /** On a file without a begin marker, removing after writing gives the file back exactly if the fields do not contain
      the end marker and the file was empty or ended in a newline; else a clean block costs one newline more. */
  lemma RemoveUndoesUpsertIff(x: string, b: SSHConfigBlock)
    requires !Contains(x, BEGIN)
    ensures Removed(Upserted(x, b)) == x <==> Clean(b) && NewlineTerminated(x)
    ensures Clean(b) && !NewlineTerminated(x) ==> Removed(Upserted(x, b)) == x + "\n"
  {
    RenderedBlock(b);
    RemoveWrittenIff(x, RenderBlock(b));
  }

  predicate AllBlank(s: string) {
    TrimRightBlanks(s) == ""
  }

  /** Blanks at the end may be trimmed beforehand. */
  lemma {:induction false} TrimTail(head: string, tail: string)
    ensures TrimRightBlanks(head + tail) == TrimRightBlanks(head + TrimRightBlanks(tail))
  {
    if tail != "" && (tail[|tail| - 1] == ' ' || tail[|tail| - 1] == '\t') {
      var s := head + tail;
      assert s[..|s| - 1] == head + tail[..|tail| - 1];
      TrimTail(head, tail[..|tail| - 1]);
    }
  }

  lemma TrimShortens(s: string)
    requires EndsWithNewline(s)
    ensures TrimRightBlanks(s) == s && TrimRightBlanks(s[..|s| - 1]) != s
  {
  }

  lemma RemoveRewrittenIff(x: string, block: string)
    requires Closed(x) && BlockLike(block) && Leftover(block) == ""
    ensures Removed(WithBlock(x, block)) == Removed(x) <==>
      !(Behind(x) != "" && AllBlank(Behind(x)) && HasSuffix(Before(x), "\n"))
  {
    var pre, post := Before(x), Behind(x);
    var tail := TrimRightBlanks(post);
    WriteKeepsOutside(x, block);
    BeforeHasNoBegin(x);
    RemovalForm(pre, block, tail);
    assert Leftover(block) + tail == tail;
    NewlineSuffix(pre);
    assert Removed(x) == TrimRightBlanks(Closing(pre, post) + post);
    TrimTail(Closing(pre, post), post);
    if HasSuffix(pre, "\n") && tail == "" && post != "" {
      assert Closing(pre, tail) + tail == pre[..|pre| - 1];
      assert Closing(pre, post) + tail == pre;
      TrimShortens(pre);
    } else {
      assert Closing(pre, tail) == Closing(pre, post);
    }
  }

  /** On a file with a closed block, rewriting the block first makes no difference to a removal, except when only
      blanks follow the block and a newline precedes it: the rewrite trims the blanks, so the newline goes too. */
  lemma RemoveAfterRewriteIff(x: string, b: SSHConfigBlock)
    requires Closed(x) && Clean(b)
    ensures Removed(Upserted(x, b)) == Removed(x) <==>
      !(Behind(x) != "" && AllBlank(Behind(x)) && HasSuffix(Before(x), "\n"))
  {
    RenderedBlock(b);
    RemoveRewrittenIff(x, RenderBlock(b));
  }
}
