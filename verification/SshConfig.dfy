/** The editor of the managed block in ~/.ssh/config. */
module SshConfig {
  import opened Text
  import Decimal

  const BEGIN := "# >>> flexctl >>>"
  const END := "# <<< flexctl <<<"

  datatype SSHConfigBlock = SSHConfigBlock(flexctlBinary: string, knownHosts: string)

  /* The fixed text of a block: before the binary, between binary and known hosts. */
  const NOTICE := "# Managed by flexctl login. " + "Do not edit between markers; " + "changes will be overwritten."
  const HEAD_LINES := [BEGIN, NOTICE, "Host *.flex", "    User dev"]
  const TOP := Ended(HEAD_LINES) + "    ProxyCommand "
  const OPTION_LINES := ["    ServerAliveInterval 30", "    ServerAliveCountMax 3", "    ConnectTimeout 30",
                         "    StrictHostKeyChecking accept-new"]
  const MIDDLE := " proxy %h %p\n" + Ended(OPTION_LINES) + "    UserKnownHostsFile "

  /** Everything before the closing marker. */
  function Opening(b: SSHConfigBlock): string {
    TOP + b.flexctlBinary + MIDDLE + b.knownHosts + "\n"
  }

  function RenderBlock(b: SSHConfigBlock): string {
    Opening(b) + END + "\n"
  }

  /** Existing content, ended by a newline and one empty line; nothing for an empty file. */
  function Separated(existing: string): string {
    if existing == "" then ""
    else if HasSuffix(existing, "\n") then existing + "\n"
    else existing + "\n" + "\n"
  }

  function Appended(existing: string, block: string): string {
    Separated(existing) + block
  }

  /** A begin marker with no end marker after it. */
  predicate Unclosed(x: string) {
    var i := Index(x, BEGIN);
    i >= 0 && Index(x[i..], END) < 0
  }

  predicate Closed(x: string) {
    var i := Index(x, BEGIN);
    i >= 0 && Index(x[i..], END) >= 0
  }

  /** Where the text after the first block starts: past the end marker and one newline. */
  function BlockEnd(x: string): (r: nat)
    requires Closed(x)
    ensures Index(x, BEGIN) + |BEGIN| <= r <= |x|
  {
    var i := Index(x, BEGIN);
    var j := Index(x[i..], END);
    assert j >= |BEGIN| by {
      MarkersApart(x[i..], j);
    }
    var end := i + j + |END|;
    if end < |x| && x[end] == '\n' then end + 1 else end
  }

  /** The begin marker starts with the only '#' it has, and has no newline. */
  lemma BeginHasOneHash(k: int)
    requires 0 < k < |BEGIN|
    ensures BEGIN[k] != '#' && BEGIN[k] != '\n'
  {
  }

  /** The end marker does not start inside the begin marker. */
  lemma MarkersApart(s: string, j: int)
    requires OccursAt(s, BEGIN, 0) && OccursAt(s, END, j)
    ensures j >= |BEGIN|
  {
    OccursChar(s, END, j, 0);
    OccursChar(s, END, j, 2);
    OccursChar(s, BEGIN, 0, 2);
    if 0 < j < |BEGIN| {
      OccursChar(s, BEGIN, 0, j);
      BeginHasOneHash(j);
    }
  }

  /** What is left around a block that goes away: at the end of the file one newline goes with it. */
  function Closing(pre: string, post: string): string {
    if HasSuffix(pre, "\n") && post == "" then pre[..|pre| - 1] else pre
  }

  /** The first block replaced; no block, or one that is not closed, leaves the text as it is. */
  function Replaced(existing: string, replacement: string): string {
    if !Closed(existing) then existing
    else
      var pre, post := existing[..Index(existing, BEGIN)], existing[BlockEnd(existing)..];
      TrimRightBlanks((if replacement != "" then pre + replacement else Closing(pre, post)) + post)
  }

  function WithBlock(existing: string, block: string): string {
    if Contains(existing, BEGIN) then Replaced(existing, block) else Appended(existing, block)
  }

  function Upserted(existing: string, b: SSHConfigBlock): string {
    WithBlock(existing, RenderBlock(b))
  }

  function Removed(existing: string): string {
    if Contains(existing, BEGIN) then Replaced(existing, "") else existing
  }

  lemma NewlineSuffix(s: string)
    ensures HasSuffix(s, "\n") <==> |s| > 0 && s[|s| - 1] == '\n'
  {
    if |s| > 0 {
      assert s[|s| - 1..] == [s[|s| - 1]];
    }
  }

  method AppendBlock(existing: string, block: string) returns (out: string)
    ensures out == Appended(existing, block)
  {
    var buf := existing;
    if |existing| > 0 && !HasSuffix(existing, "\n") {
      buf := buf + "\n";
    }
    if |existing| > 0 {
      buf := buf + "\n";
    }
    out := buf + block;
  }

  method ReplaceBlock(existing: string, replacement: string) returns (out: string)
    ensures out == Replaced(existing, replacement)
  {
    var beginIdx := Index(existing, BEGIN);
    if beginIdx < 0 {
      return existing;
    }
    var endIdx := Index(existing[beginIdx..], END);
    if endIdx < 0 {
      return existing;
    }
    endIdx := endIdx + beginIdx + |END|;
    if endIdx < |existing| && existing[endIdx] == '\n' {
      endIdx := endIdx + 1;
    }
    assert Closed(existing) && endIdx == BlockEnd(existing);
    ghost var pre, post := existing[..beginIdx], existing[endIdx..];
    NewlineSuffix(pre);
    var buf := existing[..beginIdx];
    if replacement != "" {
      buf := buf + replacement;
    } else {
      if |buf| > 0 && buf[|buf| - 1] == '\n' && |existing[endIdx..]| == 0 {
        buf := buf[..|buf| - 1];
      }
    }
    assert buf == if replacement != "" then pre + replacement else Closing(pre, post);
    buf := buf + existing[endIdx..];
    out := TrimRightBlanks(buf);
  }

  /** The files, by path; a missing file reads as empty. */
  class Disk {
    var files: map<string, string>

    constructor (files: map<string, string>)
      ensures this.files == files
    {
      this.files := files;
    }

    function Read(path: string): string
      reads this
    {
      if path in files then files[path] else ""
    }

    /** Inserts or replaces the block; a non-empty file without one is first copied aside. */
    method UpsertSSHConfig(path: string, b: SSHConfigBlock, unixTime: int)
      modifies this
      ensures Read(path) == Upserted(old(Read(path)), b)
      ensures var bak := path + ".flexctl-bak." + Decimal.Itoa(unixTime);
        files == if old(Read(path)) != "" && !Contains(old(Read(path)), BEGIN)
                 then old(files)[bak := old(Read(path))][path := Upserted(old(Read(path)), b)]
                 else old(files)[path := Upserted(old(Read(path)), b)]
    {
      var existing := Read(path);
      var hadBlock := Contains(existing, BEGIN);
      if |existing| > 0 && !hadBlock {
        var bak := path + ".flexctl-bak." + Decimal.Itoa(unixTime);
        files := files[bak := existing];
      }
      var out;
      if hadBlock {
        out := ReplaceBlock(existing, RenderBlock(b));
      } else {
        out := AppendBlock(existing, RenderBlock(b));
      }
      files := files[path := out];
    }

    /** Removes the block; the file before is copied aside. Without a file or a block nothing happens. */
    method RemoveSSHConfigBlock(path: string, unixTime: int)
      modifies this
      ensures Read(path) == Removed(old(Read(path)))
      ensures var bak := path + ".flexctl-bak." + Decimal.Itoa(unixTime);
        files == if Contains(old(Read(path)), BEGIN)
                 then old(files)[bak := old(Read(path))][path := Removed(old(Read(path)))]
                 else old(files)
    {
      if path !in files {
        return;
      }
      var existing := files[path];
      if !Contains(existing, BEGIN) {
        return;
      }
      var bak := path + ".flexctl-bak." + Decimal.Itoa(unixTime);
      files := files[bak := existing];
      var out := ReplaceBlock(existing, "");
      files := files[path := out];
    }
  }
}
