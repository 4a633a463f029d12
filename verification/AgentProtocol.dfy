/** Environment ids and the messages between the control plane and a node agent. */
module AgentProtocol {

  /** A UUID, represented by its canonical text (what uuid.UUID.String prints). */
  type EnvId = string

  predicate IsHex(c: char) {
    '0' <= c <= '9' || 'a' <= c <= 'f'
  }

  /** The canonical 8-4-4-4-12 form; uuid.Parse succeeds exactly on it here. */
  predicate IsUuid(s: string) {
    |s| == 36 &&
    forall i :: 0 <= i < 36 ==> if i == 8 || i == 13 || i == 18 || i == 23 then s[i] == '-' else IsHex(s[i])
  }

  datatype CreateEnv = CreateEnv(envId: string, imageRef: string, sidecarImageRef: string, hostname: string,
                                 headscaleUrl: string, preauthKey: string, tags: seq<string>,
                                 authorizedKeys: string, gpuRequest: nat, defaultCmd: seq<string>)

  datatype StartEnv = StartEnv(envId: string, preauthKey: string, authorizedKeys: string)

  datatype AgentMessage =
    | Register(agentVersion: string)
    | Heartbeat
    | EnvReady(envId: string, sidecarContainerId: string, devContainerId: string, gpuIndices: seq<int>)
    | EnvStopped(envId: string)
    | EnvDeleted(envId: string)
    | EnvError(envId: string, stage: string, detail: string)
    | EnvSnapshot(runningEnvIds: seq<string>)

  /** The hexadecimal digits of a canonical id. */
  lemma HexDigits(c: char)
    ensures IsHex(c) <==> c in "0123456789abcdef"
  {
    if IsHex(c) {
      var k := if c <= '9' then c - '0' else c - 'a' + 10 as char;
      assert "0123456789abcdef"[k as int] == c;
    }
  }

  predicate AllHex(s: string) {
    forall i :: 0 <= i < |s| ==> s[i] in "0123456789abcdef"
  }

  /** Five groups of 8, 4, 4, 4 and 12 hexadecimal digits with hyphens between. */
  lemma UuidGroups(s: string)
    ensures IsUuid(s) <==>
      |s| == 36 && s[8] == s[13] == s[18] == s[23] == '-'
      && AllHex(s[..8]) && AllHex(s[9..13]) && AllHex(s[14..18]) && AllHex(s[19..23]) && AllHex(s[24..])
  {
    forall c ensures IsHex(c) <==> c in "0123456789abcdef" {
      HexDigits(c);
    }
    if |s| == 36 && AllHex(s[..8]) && AllHex(s[9..13]) && AllHex(s[14..18]) && AllHex(s[19..23]) && AllHex(s[24..]) {
      forall i | 0 <= i < 36 && i != 8 && i != 13 && i != 18 && i != 23 ensures IsHex(s[i]) {
        assert s[i] == if i < 8 then s[..8][i] else if i < 13 then s[9..13][i - 9] else if i < 18 then s[14..18][i - 14]
                       else if i < 23 then s[19..23][i - 19] else s[24..][i - 24];
      }
    }
  }

  /** Go's int32(i) conversion: the value in range that differs by a multiple of 2^32. */
  function ToInt32(i: int): (r: int)
    ensures -0x8000_0000 <= r < 0x8000_0000 && (r - i) % 0x1_0000_0000 == 0
  {
    (i + 0x8000_0000) % 0x1_0000_0000 - 0x8000_0000
  }

  predicate IsInt32(i: int) {
    -0x8000_0000 <= i < 0x8000_0000
  }

  function ToInt32s(idx: seq<int>): (r: seq<int>)
    ensures |r| == |idx|
    ensures forall k :: 0 <= k < |idx| ==> r[k] == ToInt32(idx[k])
  {
    seq(|idx|, k requires 0 <= k < |idx| => ToInt32(idx[k]))
  }

  lemma ToInt32sIdentity(idx: seq<int>)
    requires forall i :: i in idx ==> IsInt32(i)
    ensures ToInt32s(idx) == idx
  {
    forall k | 0 <= k < |idx| ensures ToInt32(idx[k]) == idx[k] {
      assert idx[k] in idx;
    }
  }
}
