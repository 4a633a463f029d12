/** The client's configuration file: six quoted values, printed and read back. */
module ClientConfigFile {
  import opened Wrappers
  import opened Text

  datatype ClientConfig = ClientConfig(controlPlane: string, sessionCookie: string, deviceName: string,
                                       deviceHostname: string, headscaleURL: string, tailnetDomain: string)

  const NO_CONFIG := ClientConfig("", "", "", "", "", "")

  /* ---- Quoting ---- */

  predicate IsAscii(c: char) {
    c < '\U{0080}'
  }

  predicate AllAscii(s: string) {
    forall i :: 0 <= i < |s| ==> IsAscii(s[i])
  }

  function HexDigit(n: nat): (c: char)
    requires n < 16
    ensures c != '"' && c != '\\'
  {
    if n < 10 then n as char + '0' else (n - 10) as char + 'a'
  }

  function HexValue(c: char): Option<nat> {
    if '0' <= c <= '9' then Some((c - '0') as nat)
    else if 'a' <= c <= 'f' then Some((c - 'a') as nat + 10)
    else if 'A' <= c <= 'F' then Some((c - 'A') as nat + 10)
    else None
  }

  lemma HexRoundTrip(n: nat)
    requires n < 16
    ensures HexValue(HexDigit(n)) == Some(n)
  {
  }

  /** The letter of a short escape. */
  function ShortEscape(c: char): Option<char> {
    if c == '\U{0007}' then Some('a')
    else if c == '\U{0008}' then Some('b')
    else if c == '\U{000C}' then Some('f')
    else if c == '\n' then Some('n')
    else if c == '\r' then Some('r')
    else if c == '\t' then Some('t')
    else if c == '\U{000B}' then Some('v')
    else if c == '\\' then Some('\\')
    else if c == '"' then Some('"')
    else None
  }

  function Unescape(letter: char): Option<char> {
    if letter == 'a' then Some('\U{0007}')
    else if letter == 'b' then Some('\U{0008}')
    else if letter == 'f' then Some('\U{000C}')
    else if letter == 'n' then Some('\n')
    else if letter == 'r' then Some('\r')
    else if letter == 't' then Some('\t')
    else if letter == 'v' then Some('\U{000B}')
    else if letter == '\\' then Some('\\')
    else if letter == '"' then Some('"')
    else None
  }

  predicate IsPlain(c: char) {
    ' ' <= c <= '~' && c != '"' && c != '\\'
  }

  /** How %q writes an ASCII character. */
  function Escaped(c: char): string
    requires IsAscii(c)
  {
    if ShortEscape(c).Some? then ['\\', ShortEscape(c).value]
    else if IsPlain(c) then [c]
    else ['\\', 'x', HexDigit(c as nat / 16), HexDigit(c as nat % 16)]
  }

  function Body(s: string): string
    requires AllAscii(s)
  {
    if s == [] then [] else Escaped(s[0]) + Body(s[1..])
  }

  /** fmt's %q, for ASCII text. */
  function Quote(s: string): string
    requires AllAscii(s)
  {
    ['"'] + Body(s) + ['"']
  }

  /** The character at the front of quoted text, and what comes after it. */
  function UnquoteChar(s: string): Option<(char, string)> {
    if s == [] then None
    else if IsPlain(s[0]) then Some((s[0], s[1..]))
    else if s[0] != '\\' || |s| < 2 then None
    else if Unescape(s[1]).Some? then Some((Unescape(s[1]).value, s[2..]))
    else if s[1] == 'x' && |s| >= 4 && HexValue(s[2]).Some? && HexValue(s[3]).Some? && HexValue(s[2]).value < 8 then
      Some(((HexValue(s[2]).value * 16 + HexValue(s[3]).value) as char, s[4..]))
    else None
  }

  /** Reads plain and escaped characters up to a closing quote that ends the text. */
  function UnquoteBody(s: string): Option<string>
    decreases |s|
  {
    if s == ['"'] then Some([])
    else
      match UnquoteChar(s)
      case None => None
      case Some((c, rest)) =>
        match UnquoteBody(rest)
        case None => None
        case Some(v) => Some([c] + v)
  }

  /** strconv.Unquote: double quotes around plain ASCII and the escapes above are read here; what the library
      makes of any other text is left open. */
  function Unquote(raw: string, library: string -> Option<string>): Option<string> {
    if raw != [] && raw[0] == '"' && UnquoteBody(raw[1..]).Some? then UnquoteBody(raw[1..]) else library(raw)
  }

  lemma UnquoteEscaped(c: char, rest: string)
    requires IsAscii(c)
    ensures UnquoteChar(Escaped(c) + rest) == Some((c, rest))
  {
    var e := Escaped(c);
    assert (e + rest)[|e|..] == rest;
    if ShortEscape(c).None? && !IsPlain(c) {
      HexRoundTrip(c as nat / 16);
      HexRoundTrip(c as nat % 16);
    }
  }

  lemma {:induction false} UnquoteOfBody(s: string)
    requires AllAscii(s)
    ensures UnquoteBody(Body(s) + ['"']) == Some(s)
  {
    if s != [] {
      var e, rest := Escaped(s[0]), Body(s[1..]) + ['"'];
      UnquoteOfBody(s[1..]);
      UnquoteEscaped(s[0], rest);
      assert Body(s) + ['"'] == e + rest;
      assert |e + rest| > 1;
      assert [s[0]] + s[1..] == s;
    }
  }

  /** Unquoting undoes quoting for all ASCII text, whatever the library does with other texts. */
  lemma UnquoteOfQuote(s: string, library: string -> Option<string>)
    requires AllAscii(s)
    ensures Unquote(Quote(s), library) == Some(s)
  {
    assert Quote(s)[1..] == Body(s) + ['"'];
    UnquoteOfBody(s);
  }

  /* ---- Lines ---- */

  predicate IsKey(k: string) {
    k != [] && forall i :: 0 <= i < |k| ==> 'a' <= k[i] <= 'z' || k[i] == '_'
  }

  function Line(k: string, v: string): string
    requires AllAscii(v)
  {
    k + " = " + Quote(v)
  }

  function Assign(c: ClientConfig, k: string, v: string): ClientConfig {
    if k == "control_plane" then c.(controlPlane := v)
    else if k == "session_cookie" then c.(sessionCookie := v)
    else if k == "device_name" then c.(deviceName := v)
    else if k == "device_hostname" then c.(deviceHostname := v)
    else if k == "headscale_url" then c.(headscaleURL := v)
    else if k == "tailnet_domain" then c.(tailnetDomain := v)
    else c
  }

  /** The key and value of a line; None for blank lines, comments, lines without "=" and values that do not unquote. */
  function Setting(text: string, library: string -> Option<string>): Option<(string, string)> {
    var line := TrimSpace(text);
    if line == "" || line[0] == '#' then None
    else
      var eq := Index(line, "=");
      if eq < 0 then None
      else
        match Unquote(TrimSpace(line[eq + 1..]), library)
        case None => None
        case Some(v) => Some((TrimSpace(line[..eq]), v))
  }

  function Update(c: ClientConfig, text: string, library: string -> Option<string>): ClientConfig {
    match Setting(text, library)
    case None => c
    case Some((k, v)) => Assign(c, k, v)
  }

  function ReadLines(lines: seq<string>, library: string -> Option<string>): ClientConfig {
    if lines == [] then NO_CONFIG
    else Update(ReadLines(lines[..|lines| - 1], library), lines[|lines| - 1], library)
  }

  predicate Ascii(c: ClientConfig) {
    && AllAscii(c.controlPlane) && AllAscii(c.sessionCookie) && AllAscii(c.deviceName)
    && AllAscii(c.deviceHostname) && AllAscii(c.headscaleURL) && AllAscii(c.tailnetDomain)
  }

  function Settings(c: ClientConfig): seq<(string, string)> {
    [("control_plane", c.controlPlane), ("session_cookie", c.sessionCookie), ("device_name", c.deviceName),
     ("device_hostname", c.deviceHostname), ("headscale_url", c.headscaleURL), ("tailnet_domain", c.tailnetDomain)]
  }

  predicate Printable(settings: seq<(string, string)>) {
    forall i :: 0 <= i < |settings| ==> IsKey(settings[i].0) && AllAscii(settings[i].1)
  }

  function LinesOf(settings: seq<(string, string)>): seq<string>
    requires Printable(settings)
  {
    seq(|settings|, i requires 0 <= i < |settings| => Line(settings[i].0, settings[i].1))
  }

  lemma SettingsPrintable(c: ClientConfig)
    requires Ascii(c)
    ensures Printable(Settings(c))
  {
    assert IsKey("control_plane") && IsKey("session_cookie") && IsKey("device_name");
    assert IsKey("device_hostname") && IsKey("headscale_url") && IsKey("tailnet_domain");
  }

  /** The contents of the file; every line is ended by a newline. */
  function Printed(c: ClientConfig): string
    requires Ascii(c)
  {
    SettingsPrintable(c);
    Join(LinesOf(Settings(c)) + [""], '\n')
  }

  method ReadClientConfig(contents: string, library: string -> Option<string>) returns (out: ClientConfig)
    ensures out == ReadLines(Split(contents, '\n'), library)
  {
    out := NO_CONFIG;
    var lines := Split(contents, '\n');
    for i := 0 to |lines|
      invariant out == ReadLines(lines[..i], library)
    {
      assert lines[..i + 1][..i] == lines[..i];
      var line := TrimSpace(lines[i]);
      if line == "" || line[0] == '#' {
        continue;
      }
      var eq := Index(line, "=");
      if eq < 0 {
        continue;
      }
      var k := TrimSpace(line[..eq]);
      var raw := TrimSpace(line[eq + 1..]);
      match Unquote(raw, library) {
        case None =>
        case Some(v) => out := Assign(out, k, v);
      }
    }
    assert lines[..|lines|] == lines;
  }

  /* ---- Reading back what was written ---- */

  lemma QuoteEnds(s: string)
    requires AllAscii(s)
    ensures Quote(s)[0] == '"' && Quote(s)[|Quote(s)| - 1] == '"'
  {
  }

  lemma {:induction false} BodyHasNoNewline(s: string)
    requires AllAscii(s)
    ensures '\n' !in Body(s)
  {
    if s != [] {
      BodyHasNoNewline(s[1..]);
      assert '\n' !in Escaped(s[0]);
    }
  }

  lemma KeyNotTrimmed(k: string)
    requires IsKey(k)
    ensures TrimSpace(k + " ") == k
  {
    assert (k + " ")[..|k|] == k;
  }

  lemma QuoteNotTrimmed(v: string)
    requires AllAscii(v)
    ensures TrimSpace(" " + Quote(v)) == Quote(v)
  {
    QuoteEnds(v);
    assert (" " + Quote(v))[1..] == Quote(v);
  }

  lemma FirstEquals(k: string, rest: string)
    requires IsKey(k)
    ensures Index(k + " =" + rest, "=") == |k| + 1
  {
    var line := k + " =" + rest;
    assert line[|k| + 1..|k| + 2] == "=";
    forall j | 0 <= j < |k| + 1 ensures !OccursAt(line, "=", j) {
      assert line[j] == if j < |k| then k[j] else ' ';
      if OccursAt(line, "=", j) {
        OccursChar(line, "=", j, 0);
      }
    }
    IndexIs(line, "=", |k| + 1);
  }

  lemma LineNotTrimmed(k: string, v: string)
    requires IsKey(k) && AllAscii(v)
    ensures TrimSpace(Line(k, v)) == Line(k, v)
  {
    var line := Line(k, v);
    QuoteEnds(v);
    assert line[0] == k[0] && line[|line| - 1] == Quote(v)[|Quote(v)| - 1];
  }

  lemma LineHasNoNewline(k: string, v: string)
    requires IsKey(k) && AllAscii(v)
    ensures '\n' !in Line(k, v)
  {
    BodyHasNoNewline(v);
  }

  lemma AroundEquals(k: string, rest: string)
    ensures var line := k + " =" + rest; |line| > |k| + 1 && line[..|k| + 1] == k + " " && line[|k| + 2..] == rest
  {
  }

  lemma LineForm(k: string, v: string)
    requires AllAscii(v)
    ensures Line(k, v) == k + " =" + (" " + Quote(v))
  {
  }

  /** Of a line with its parts known, the key and the value. */
  lemma SettingOfParts(line: string, eq: nat, v: string, library: string -> Option<string>)
    requires TrimSpace(line) == line && line != "" && line[0] != '#'
    requires Index(line, "=") == eq && Unquote(TrimSpace(line[eq + 1..]), library) == Some(v)
    ensures Setting(line, library) == Some((TrimSpace(line[..eq]), v))
  {
  }

  lemma SettingOfLine(k: string, v: string, library: string -> Option<string>)
    requires IsKey(k) && AllAscii(v)
    ensures Setting(Line(k, v), library) == Some((k, v))
  {
    LineNotTrimmed(k, v);
    LineForm(k, v);
    FirstEquals(k, " " + Quote(v));
    AroundEquals(k, " " + Quote(v));
    KeyNotTrimmed(k);
    QuoteNotTrimmed(v);
    UnquoteOfQuote(v, library);
    assert Line(k, v)[0] == k[0];
    SettingOfParts(Line(k, v), |k| + 1, v, library);
  }

  lemma ReadLast(lines: seq<string>, line: string, library: string -> Option<string>)
    ensures ReadLines(lines + [line], library) == Update(ReadLines(lines, library), line, library)
  {
    assert (lines + [line])[..|lines|] == lines;
  }

  /** A line that sets nothing, or a key no field has, may stand anywhere. */
  lemma {:induction false} OtherLinesAreIgnored(before: seq<string>, line: string, after: seq<string>,
                                                library: string -> Option<string>)
    requires forall c :: Update(c, line, library) == c
    ensures ReadLines(before + [line] + after, library) == ReadLines(before + after, library)
  {
    if after == [] {
      ReadLast(before, line, library);
      assert before + [line] + after == before + [line];
      assert before + after == before;
    } else {
      var front, last := after[..|after| - 1], after[|after| - 1];
      OtherLinesAreIgnored(before, line, front, library);
      ReadLast(before + [line] + front, last, library);
      ReadLast(before + front, last, library);
      assert after == front + [last];
      assert before + [line] + after == before + [line] + front + [last];
      assert before + after == before + front + [last];
    }
  }

  function AssignAll(settings: seq<(string, string)>): ClientConfig {
    if settings == [] then NO_CONFIG
    else
      var (k, v) := settings[|settings| - 1];
      Assign(AssignAll(settings[..|settings| - 1]), k, v)
  }

  lemma LinesOfLast(settings: seq<(string, string)>)
    requires Printable(settings) && settings != []
    ensures var front, last := settings[..|settings| - 1], settings[|settings| - 1];
      LinesOf(settings) == LinesOf(front) + [Line(last.0, last.1)]
  {
  }

  lemma {:induction false} ReadOfLines(settings: seq<(string, string)>, library: string -> Option<string>)
    requires Printable(settings)
    ensures ReadLines(LinesOf(settings), library) == AssignAll(settings)
  {
    if settings != [] {
      var front := settings[..|settings| - 1];
      var (k, v) := settings[|settings| - 1];
      ReadOfLines(front, library);
      SettingOfLine(k, v, library);
      ReadLast(LinesOf(front), Line(k, v), library);
      LinesOfLast(settings);
    }
  }

  lemma AssignNext(settings: seq<(string, string)>, i: nat)
    requires i < |settings|
    ensures AssignAll(settings[..i + 1]) == Assign(AssignAll(settings[..i]), settings[i].0, settings[i].1)
  {
    assert settings[..i + 1][..i] == settings[..i];
  }

  lemma AssignSettings(c: ClientConfig)
    ensures AssignAll(Settings(c)) == c
  {
    var s := Settings(c);
    AssignNext(s, 0);
    AssignNext(s, 1);
    AssignNext(s, 2);
    AssignNext(s, 3);
    AssignNext(s, 4);
    AssignNext(s, 5);
    assert s[..6] == s && s[..0] == [];
  }

  /** Reading a written file gives the configuration back, for all ASCII values. */
  lemma ReadOfPrinted(c: ClientConfig, library: string -> Option<string>)
    requires Ascii(c)
    ensures ReadLines(Split(Printed(c), '\n'), library) == c
  {
    SettingsPrintable(c);
    var settings := Settings(c);
    var lines := LinesOf(settings);
    forall p | p in lines + [""] ensures '\n' !in p {
      if p != "" {
        var i :| 0 <= i < |settings| && p == Line(settings[i].0, settings[i].1);
        LineHasNoNewline(settings[i].0, settings[i].1);
      }
    }
    SplitJoin(lines + [""], '\n');
    ReadLast(lines, "", library);
    ReadOfLines(settings, library);
    AssignSettings(c);
  }

  /* ---- What the file says ---- */

  /** The file, line by line: every key with the value of its own field. */
  lemma PrintedIs(c: ClientConfig)
    requires Ascii(c)
    ensures Printed(c) == Ended(["control_plane = " + Quote(c.controlPlane),
                                 "session_cookie = " + Quote(c.sessionCookie),
                                 "device_name = " + Quote(c.deviceName),
                                 "device_hostname = " + Quote(c.deviceHostname),
                                 "headscale_url = " + Quote(c.headscaleURL),
                                 "tailnet_domain = " + Quote(c.tailnetDomain)])
  {
    SettingsPrintable(c);
    var lines := LinesOf(Settings(c));
    EndedIsJoin(lines);
    assert "control_plane" + " = " == "control_plane = ";
    assert "session_cookie" + " = " == "session_cookie = ";
    assert "device_name" + " = " == "device_name = ";
    assert "device_hostname" + " = " == "device_hostname = ";
    assert "headscale_url" + " = " == "headscale_url = ";
    assert "tailnet_domain" + " = " == "tailnet_domain = ";
    assert lines == [Line("control_plane", c.controlPlane), Line("session_cookie", c.sessionCookie),
                     Line("device_name", c.deviceName), Line("device_hostname", c.deviceHostname),
                     Line("headscale_url", c.headscaleURL), Line("tailnet_domain", c.tailnetDomain)];
  }

  /** How single characters are written: most as they are. */
  lemma PlainIs(c: char)
    requires IsAscii(c)
    ensures ' ' <= c <= '~' && c != '"' && c != '\\' ==> Escaped(c) == [c]
  {
  }

  /** Quotes, backslashes and the usual control characters by a letter. */
  lemma EscapesAre()
    ensures Escaped('"') == "\\\"" && Escaped('\\') == "\\\\"
    ensures Escaped('\n') == "\\n" && Escaped('\r') == "\\r" && Escaped('\t') == "\\t"
    ensures Escaped('\U{0007}') == "\\a" && Escaped('\U{0008}') == "\\b"
    ensures Escaped('\U{000B}') == "\\v" && Escaped('\U{000C}') == "\\f"
  {
  }

  /** The others by two hexadecimal digits. */
  lemma HexEscapeIs(c: char)
    requires IsAscii(c) && (c < ' ' || c > '~') && !(7 <= c as int <= 13)
    ensures Escaped(c) == ['\\', 'x', "0123456789abcdef"[c as int / 16], "0123456789abcdef"[c as int % 16]]
  {
  }

  /* ---- Lines that set nothing ---- */

  /** Blank lines, comments and lines without "=" set nothing. */
  lemma NoSetting(text: string, library: string -> Option<string>)
    requires TrimSpace(text) == "" || TrimSpace(text)[0] == '#' || '=' !in TrimSpace(text)
    ensures Setting(text, library) == None
  {
    var line := TrimSpace(text);
    if Index(line, "=") >= 0 {
      OccursChar(line, "=", Index(line, "="), 0);
      assert line[Index(line, "=")] in line;
    }
  }

  /** What "=" stands for: the first one splits key and value, both without the space around. */
  lemma SettingIs(k: string, raw: string, library: string -> Option<string>)
    requires IsKey(k) && TrimSpace(raw) == raw && raw != "" && Unquote(raw, library).Some?
    ensures Setting(k + " = " + raw, library) == Some((k, Unquote(raw, library).value))
  {
    var line, rest := k + " = " + raw, " " + raw;
    assert line == k + " =" + rest;
    assert rest[1..] == raw;
    FirstEquals(k, rest);
    AroundEquals(k, rest);
    KeyNotTrimmed(k);
    assert line[0] == k[0] && line[|line| - 1] == raw[|raw| - 1];
    TrimmedEnds(raw);
    SettingOfParts(line, |k| + 1, Unquote(raw, library).value, library);
  }

  lemma TrimmedEnds(s: string)
    requires TrimSpace(s) == s && s != ""
    ensures !IsSpace(s[0]) && !IsSpace(s[|s| - 1])
  {
    var pre, post := TrimSpaceIs(s);
  }
}
