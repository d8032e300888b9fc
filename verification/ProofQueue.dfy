/** Proof jobs: the content-addressed identity, and results that bind to it. Texts are their
    UTF-8 bytes. SHA-256 and the JSON encoders are arbitrary functions. */
module ProofJobs {
  import opened Wrappers
  import opened MachineInts

  const PROOF_SCHEMA_VERSION: u32 := 2

  type Text = Bytes

  type Hash32 = b: Bytes | |b| == 32 witness Zeros(32)

  datatype ProofRequest = ProofRequest(
    requestId: Text, oldState: Text, blockWitness: Text, finalizedWitness: Text, custodyScriptConfig: Text,
    requiredConfirmations: u32, flatFee: u64, feeNum: u64, feeDen: u64,
    oldHeader: Text, newHeader: Text, configParams: Text)

  datatype ProofJob = ProofJob(
    schemaVersion: u32, jobId: Text, network: Text, height: u32, parentCheckpointSha256: Text,
    inputFingerprint: Text, guestId: Text, blockElfSha256: Text, vkeyHash: Text, request: ProofRequest)

  datatype Codec = Codec(sha256: Bytes -> Hash32, canonical: ProofRequest -> Bytes, serialize: ProofJob -> Bytes)

  datatype JobError =
    | UnsupportedSchema | InvalidHex | NotThirtyTwoBytes | NotLowercase | FieldTooLong
    | FingerprintMismatch | JobIdMismatch | ResultMismatch

  // ---------- hex ----------

  function HexDigit(n: nat): byte
    requires n < 16
  {
    if n < 10 then 48 + n else 87 + n
  }

  function HexValue(c: byte): (v: Option<nat>)
    ensures v.Some? ==> v.value < 16
  {
    if 48 <= c <= 57 then Some(c - 48)
    else if 97 <= c <= 102 then Some(c - 87)
    else if 65 <= c <= 70 then Some(c - 55)
    else None
  }

  function HexEncode(b: Bytes): (t: Text)
    ensures |t| == 2 * |b|
  {
    if b == [] then [] else [HexDigit(b[0] / 16), HexDigit(b[0] % 16)] + HexEncode(b[1..])
  }

  function HexDecode(t: Text): (b: Option<Bytes>)
    ensures b.Some? ==> 2 * |b.value| == |t|
  {
    if t == [] then Some([])
    else if |t| == 1 || HexValue(t[0]) == None || HexValue(t[1]) == None then None
    else
      var rest := HexDecode(t[2..]);
      if rest == None then None else Some([16 * HexValue(t[0]).value + HexValue(t[1]).value] + rest.value)
  }

  predicate IsUppercase(c: byte) {
    65 <= c <= 90
  }

  predicate HasUppercase(t: Text) {
    exists i :: 0 <= i < |t| && IsUppercase(t[i])
  }

  function DecodeHex32(t: Text): Result<Hash32, JobError> {
    var b := HexDecode(t);
    if b == None then Err(InvalidHex) else if |b.value| != 32 then Err(NotThirtyTwoBytes) else Ok(b.value)
  }

  function ValidateHex32(t: Text): Result<(), JobError> {
    var b := DecodeHex32(t);
    if b.Err? then Err(b.error)
    else if |t| != 64 || HasUppercase(t) then Err(NotLowercase)
    else Ok(())
  }

  lemma {:induction false} HexRoundTrip(b: Bytes)
    ensures HexDecode(HexEncode(b)) == Some(b)
    ensures !HasUppercase(HexEncode(b))
  {
    if b != [] {
      HexRoundTrip(b[1..]);
      var t := HexEncode(b);
      assert t[2..] == HexEncode(b[1..]);
      forall i | 0 <= i < |t|
        ensures !IsUppercase(t[i])
      {
        if i >= 2 {
          assert t[i] == HexEncode(b[1..])[i - 2];
        }
      }
      assert 16 * (b[0] / 16) + b[0] % 16 == b[0];
      assert [b[0]] + b[1..] == b;
    }
  }

  /** Lowercase hex is the only text of its bytes ... */
  lemma {:induction false} LowercaseHexIsCanonical(t: Text)
    requires HexDecode(t).Some? && !HasUppercase(t)
    ensures t == HexEncode(HexDecode(t).value)
    decreases |t|
  {
    if t != [] {
      forall i | 0 <= i < |t[2..]|
        ensures !IsUppercase(t[2..][i])
      {
        assert t[2..][i] == t[i + 2];
      }
      LowercaseHexIsCanonical(t[2..]);
      var high, low := HexValue(t[0]).value, HexValue(t[1]).value;
      assert (16 * high + low) / 16 == high && (16 * high + low) % 16 == low;
      assert !IsUppercase(t[0]) && !IsUppercase(t[1]);
      assert t == [t[0], t[1]] + t[2..];
    }
  }

  /** Each byte is two digits, the high one first. */
  lemma {:induction false} HexMeaning(b: Bytes, i: nat)
    requires i < |b|
    ensures HexEncode(b)[2 * i] == "0123456789abcdef"[b[i] / 16] as int
    ensures HexEncode(b)[2 * i + 1] == "0123456789abcdef"[b[i] % 16] as int
    decreases i
  {
    var rest := HexEncode(b[1..]);
    assert HexEncode(b)[2..] == rest;
    if i > 0 {
      HexMeaning(b[1..], i - 1);
      assert HexEncode(b)[2 * i] == rest[2 * (i - 1)] && HexEncode(b)[2 * i + 1] == rest[2 * (i - 1) + 1];
    }
  }

  predicate IsHexLetter(c: byte) {
    97 <= c <= 102
  }

  /** ... which is why the case is checked: otherwise every text with a letter in it would have
      another one that decodes to the same bytes. */
  lemma {:induction false} UppercaseHexIsAnAlias(t: Text, i: nat)
    requires HexDecode(t).Some? && i < |t| && IsHexLetter(t[i])
    ensures t[i := t[i] - 32] != t && HexDecode(t[i := t[i] - 32]) == HexDecode(t)
    decreases |t|
  {
    var upper := t[i := t[i] - 32];
    assert upper[i] != t[i];
    if i < 2 {
      assert upper[2..] == t[2..];
    } else {
      UppercaseHexIsAnAlias(t[2..], i - 2);
      assert upper[2..] == t[2..][i - 2 := t[i] - 32];
    }
  }

  // ---------- the identity encoding ----------

  function BigEndian32(n: u32): (b: Bytes)
    ensures |b| == 4
  {
    var b3, n3 := n % 256, n / 256;
    var b2, n2 := n3 % 256, n3 / 256;
    var b1, b0 := n2 % 256, n2 / 256;
    [b0, b1, b2, b3]
  }

  /** What the job id hashes, before it is flattened to bytes: the block being proved, the program
      that proves it, and the request. */
  datatype BlockPart = BlockPart(schemaVersion: u32, network: Bytes, height: u32, parent: Hash32, input: Hash32)
  datatype ProgramPart = ProgramPart(guestId: Bytes, elf: Hash32, vkey: Hash32)
  datatype Identity = Identity(block: BlockPart, program: ProgramPart, request: Bytes) {
    predicate Fits() {
      |block.network| <= U32_MAX && |program.guestId| <= U32_MAX && |request| <= U32_MAX
    }
  }

  function LengthPrefixed(b: Bytes): Bytes
    requires |b| <= U32_MAX
  {
    BigEndian32(|b|) + b
  }

  function FlattenBlock(p: BlockPart): Bytes
    requires |p.network| <= U32_MAX
  {
    BigEndian32(p.schemaVersion) + LengthPrefixed(p.network) + BigEndian32(p.height) + p.parent + p.input
  }

  function FlattenProgram(p: ProgramPart): Bytes
    requires |p.guestId| <= U32_MAX
  {
    LengthPrefixed(p.guestId) + p.elf + p.vkey
  }

  function Flatten(id: Identity): Bytes
    requires id.Fits()
  {
    FlattenBlock(id.block) + FlattenProgram(id.program) + LengthPrefixed(id.request)
  }

  /** A reader for flattened identities: each take returns what it read and what is left. */
  function TakeBytes(b: Bytes, n: nat): Option<(Bytes, Bytes)> {
    if n <= |b| then Some((b[..n], b[n..])) else None
  }

  function TakeU32(b: Bytes): (r: Option<(u32, Bytes)>) {
    if |b| < 4 then None
    else
      var b0: nat, b1: nat, b2: nat, b3: nat := b[0], b[1], b[2], b[3];
      Some((((b0 * 256 + b1) * 256 + b2) * 256 + b3, b[4..]))
  }

  function TakePrefixed(b: Bytes): Option<(Bytes, Bytes)> {
    var n := TakeU32(b);
    if n == None then None else TakeBytes(n.value.1, n.value.0)
  }

  function TakeHash(b: Bytes): Option<(Hash32, Bytes)> {
    if 32 <= |b| then Some((b[..32], b[32..])) else None
  }

  function TakeBlock(b: Bytes): Option<(BlockPart, Bytes)> {
    var schemaVersion := TakeU32(b);
    if schemaVersion == None then None else
    var network := TakePrefixed(schemaVersion.value.1);
    if network == None then None else
    var height := TakeU32(network.value.1);
    if height == None then None else
    var parent := TakeHash(height.value.1);
    if parent == None then None else
    var input := TakeHash(parent.value.1);
    if input == None then None else
    Some((BlockPart(schemaVersion.value.0, network.value.0, height.value.0, parent.value.0, input.value.0),
        input.value.1))
  }

  function TakeProgram(b: Bytes): Option<(ProgramPart, Bytes)> {
    var guestId := TakePrefixed(b);
    if guestId == None then None else
    var elf := TakeHash(guestId.value.1);
    if elf == None then None else
    var vkey := TakeHash(elf.value.1);
    if vkey == None then None else
    Some((ProgramPart(guestId.value.0, elf.value.0, vkey.value.0), vkey.value.1))
  }

  function Unflatten(b: Bytes): Option<Identity> {
    var block := TakeBlock(b);
    if block == None then None else
    var program := TakeProgram(block.value.1);
    if program == None then None else
    var request := TakePrefixed(program.value.1);
    if request == None || request.value.1 != [] then None else
    Some(Identity(block.value.0, program.value.0, request.value.0))
  }

  lemma {:induction false} TakeU32Back(n: u32, rest: Bytes)
    ensures TakeU32(BigEndian32(n) + rest) == Some((n, rest))
  {
    var b := BigEndian32(n) + rest;
    assert b[4..] == rest;
    var b0: nat, b1: nat, b2: nat := b[0], b[1], b[2];
    assert b0 * 256 + b1 == n / 256 / 256;
    assert n / 256 / 256 * 256 + b2 == n / 256;
  }

  lemma {:induction false} TakeBytesBack(b: Bytes, rest: Bytes)
    ensures TakeBytes(b + rest, |b|) == Some((b, rest))
  {
    assert (b + rest)[..|b|] == b && (b + rest)[|b|..] == rest;
  }

  lemma {:induction false} TakeHashBack(b: Hash32, rest: Bytes)
    ensures TakeHash(b + rest) == Some((b, rest))
  {
    assert (b + rest)[..|b|] == b && (b + rest)[|b|..] == rest;
  }

  lemma {:induction false} TakePrefixedBack(b: Bytes, rest: Bytes)
    requires |b| <= U32_MAX
    ensures TakePrefixed(LengthPrefixed(b) + rest) == Some((b, rest))
  {
    assert LengthPrefixed(b) + rest == BigEndian32(|b|) + (b + rest);
    TakeU32Back(|b|, b + rest);
    TakeBytesBack(b, rest);
  }

  lemma {:induction false} TakeBlockBack(p: BlockPart, rest: Bytes)
    requires |p.network| <= U32_MAX
    ensures TakeBlock(FlattenBlock(p) + rest) == Some((p, rest))
  {
    var input := p.input + rest;
    var parent := p.parent + input;
    var height := BigEndian32(p.height) + parent;
    var network := LengthPrefixed(p.network) + height;
    assert FlattenBlock(p) + rest == BigEndian32(p.schemaVersion) + network;
    TakeU32Back(p.schemaVersion, network);
    TakePrefixedBack(p.network, height);
    TakeU32Back(p.height, parent);
    TakeHashBack(p.parent, input);
    TakeHashBack(p.input, rest);
  }

  lemma {:induction false} TakeProgramBack(p: ProgramPart, rest: Bytes)
    requires |p.guestId| <= U32_MAX
    ensures TakeProgram(FlattenProgram(p) + rest) == Some((p, rest))
  {
    var vkey := p.vkey + rest;
    var elf := p.elf + vkey;
    assert FlattenProgram(p) + rest == LengthPrefixed(p.guestId) + elf;
    TakePrefixedBack(p.guestId, elf);
    TakeHashBack(p.elf, vkey);
    TakeHashBack(p.vkey, rest);
  }

  /** The flattened identity is uniquely decodable. */
  lemma {:induction false} FlattenRoundTrip(id: Identity)
    requires id.Fits()
    ensures Unflatten(Flatten(id)) == Some(id)
  {
    var last := LengthPrefixed(id.request) + [];
    assert Flatten(id) == FlattenBlock(id.block) + (FlattenProgram(id.program) + last);
    TakeBlockBack(id.block, FlattenProgram(id.program) + last);
    TakeProgramBack(id.program, last);
    TakePrefixedBack(id.request, []);
  }

  // ---------- jobs ----------

  function Sha256Hex(c: Codec, b: Bytes): Text {
    HexEncode(c.sha256(b))
  }

  function BlockPartOf(job: ProofJob): (r: Result<BlockPart, JobError>)
    ensures r.Ok? ==> |r.value.network| <= U32_MAX
  {
    if |job.network| > U32_MAX then Err(FieldTooLong) else
    var parent := DecodeHex32(job.parentCheckpointSha256);
    if parent.Err? then Err(parent.error) else
    var input := DecodeHex32(job.inputFingerprint);
    if input.Err? then Err(input.error) else
    Ok(BlockPart(job.schemaVersion, job.network, job.height, parent.value, input.value))
  }

  function ProgramPartOf(job: ProofJob): (r: Result<ProgramPart, JobError>)
    ensures r.Ok? ==> |r.value.guestId| <= U32_MAX
  {
    if |job.guestId| > U32_MAX then Err(FieldTooLong) else
    var elf := DecodeHex32(job.blockElfSha256);
    if elf.Err? then Err(elf.error) else
    var vkey := DecodeHex32(job.vkeyHash);
    if vkey.Err? then Err(vkey.error) else
    Ok(ProgramPart(job.guestId, elf.value, vkey.value))
  }

  /** The identity of a job, in the order in which its parts are checked. */
  function IdentityOf(c: Codec, job: ProofJob): (r: Result<Identity, JobError>)
    ensures r.Ok? ==> r.value.Fits()
  {
    var block := BlockPartOf(job);
    if block.Err? then Err(block.error) else
    var program := ProgramPartOf(job);
    if program.Err? then Err(program.error) else
    if |c.canonical(job.request)| > U32_MAX then Err(FieldTooLong) else
    Ok(Identity(block.value, program.value, c.canonical(job.request)))
  }

  function JobIdOf(c: Codec, job: ProofJob): Result<Text, JobError> {
    var id := IdentityOf(c, job);
    if id.Err? then Err(id.error) else Ok(Sha256Hex(c, Flatten(id.value)))
  }

  function ValidateHashes(job: ProofJob): Result<(), JobError> {
    var parent := ValidateHex32(job.parentCheckpointSha256);
    if parent.Err? then parent else
    var input := ValidateHex32(job.inputFingerprint);
    if input.Err? then input else
    var elf := ValidateHex32(job.blockElfSha256);
    if elf.Err? then elf else ValidateHex32(job.vkeyHash)
  }

  function Validate(c: Codec, job: ProofJob): Result<(), JobError> {
    if job.schemaVersion != PROOF_SCHEMA_VERSION then Err(UnsupportedSchema) else
    var hashes := ValidateHashes(job);
    if hashes.Err? then hashes else
    if job.inputFingerprint != Sha256Hex(c, c.canonical(job.request)) then Err(FingerprintMismatch) else
    var id := JobIdOf(c, job);
    if id.Err? then Err(id.error) else
    if job.jobId != id.value then Err(JobIdMismatch) else Ok(())
  }

  function NewJob(c: Codec, network: Text, height: u32, parent: Text, guestId: Text, elf: Text, vkey: Text,
      request: ProofRequest)
    : Result<ProofJob, JobError>
  {
    var draft := ProofJob(PROOF_SCHEMA_VERSION, [], network, height, parent, Sha256Hex(c, c.canonical(request)),
        guestId, elf, vkey, request);
    var id := JobIdOf(c, draft);
    if id.Err? then Err(id.error) else
    var job := draft.(jobId := id.value);
    var valid := Validate(c, job);
    if valid.Err? then Err(valid.error) else Ok(job)
  }

  /** A new job is refused only for its hashes or an oversized field; what comes out is valid, and
      the same inputs give the same job again. */
  lemma {:induction false} NewJobIsValid(c: Codec, network: Text, height: u32, parent: Text, guestId: Text, elf: Text,
      vkey: Text, request: ProofRequest)
    ensures var job := NewJob(c, network, height, parent, guestId, elf, vkey, request);
            && (job.Ok? <==> && ValidateHex32(parent).Ok? && ValidateHex32(elf).Ok? && ValidateHex32(vkey).Ok?
                             && |network| <= U32_MAX && |guestId| <= U32_MAX && |c.canonical(request)| <= U32_MAX)
            && (job.Ok? ==>
                  && Validate(c, job.value).Ok?
                  && job.value == ProofJob(2, job.value.jobId, network, height, parent,
                                           HexEncode(c.sha256(c.canonical(request))), guestId, elf, vkey, request))
  {
    HexRoundTrip(c.sha256(c.canonical(request)));
  }

  /** A text is accepted as a hash exactly if it is the lowercase hex of 32 bytes. */
  lemma {:induction false} Hex32Meaning(t: Text)
    ensures ValidateHex32(t).Ok? <==> exists b: Hash32 :: t == HexEncode(b)
    ensures ValidateHex32(t).Ok? ==> DecodeHex32(t).Ok? && t == HexEncode(DecodeHex32(t).value)
  {
    if ValidateHex32(t).Ok? {
      LowercaseHexIsCanonical(t);
    }
    if b: Hash32 :| t == HexEncode(b) {
      HexRoundTrip(b);
    }
  }

  /** What the id of a job is the hash of, given the hashes that its texts stand for. */
  function IdentityWith(c: Codec, job: ProofJob, parent: Hash32, input: Hash32, elf: Hash32, vkey: Hash32): Identity {
    Identity(BlockPart(2, job.network, job.height, parent, input), ProgramPart(job.guestId, elf, vkey),
      c.canonical(job.request))
  }

  /** A valid job: schema 2, four hashes in lowercase hex, fields that fit, the fingerprint of its own
      request, and the id of its own identity. */
  ghost predicate IsValidJob(c: Codec, job: ProofJob, parent: Hash32, input: Hash32, elf: Hash32, vkey: Hash32) {
    && job.schemaVersion == 2
    && job.parentCheckpointSha256 == HexEncode(parent) && job.inputFingerprint == HexEncode(input)
    && job.blockElfSha256 == HexEncode(elf) && job.vkeyHash == HexEncode(vkey)
    && |job.network| <= U32_MAX && |job.guestId| <= U32_MAX && |c.canonical(job.request)| <= U32_MAX
    && input == c.sha256(c.canonical(job.request))
    && job.jobId == HexEncode(c.sha256(Flatten(IdentityWith(c, job, parent, input, elf, vkey))))
  }

  lemma {:induction false} ValidJobMeaning(c: Codec, job: ProofJob)
    ensures Validate(c, job).Ok? <==>
              exists parent: Hash32, input: Hash32, elf: Hash32, vkey: Hash32 ::
                IsValidJob(c, job, parent, input, elf, vkey)
  {
    if Validate(c, job).Ok? {
      ValidIsValidJob(c, job);
    }
    if parent: Hash32, input: Hash32, elf: Hash32, vkey: Hash32 :| IsValidJob(c, job, parent, input, elf, vkey) {
      ValidJobIsValid(c, job, parent, input, elf, vkey);
    }
  }

  lemma {:induction false} ValidIsValidJob(c: Codec, job: ProofJob)
    requires Validate(c, job).Ok?
    ensures exists parent: Hash32, input: Hash32, elf: Hash32, vkey: Hash32 ::
              IsValidJob(c, job, parent, input, elf, vkey)
  {
    Hex32Meaning(job.parentCheckpointSha256);
    Hex32Meaning(job.inputFingerprint);
    Hex32Meaning(job.blockElfSha256);
    Hex32Meaning(job.vkeyHash);
    var parent, elf := DecodeHex32(job.parentCheckpointSha256).value, DecodeHex32(job.blockElfSha256).value;
    var vkey, input := DecodeHex32(job.vkeyHash).value, c.sha256(c.canonical(job.request));
    HexRoundTrip(input);
    assert IsValidJob(c, job, parent, input, elf, vkey);
  }

  lemma {:induction false} ValidJobIsValid(
    c: Codec, job: ProofJob, parent: Hash32, input: Hash32, elf: Hash32, vkey: Hash32)
    requires IsValidJob(c, job, parent, input, elf, vkey)
    ensures Validate(c, job).Ok?
  {
    HexRoundTrip(parent);
    HexRoundTrip(input);
    HexRoundTrip(elf);
    HexRoundTrip(vkey);
  }

  /** The four bytes of a number, most significant first. */
  ghost predicate Encodes32(b: Bytes, n: nat) {
    && |b| == 4
    && var b0: nat, b1: nat, b2: nat, b3: nat := b[0], b[1], b[2], b[3];
    n == b0 * 0x100_0000 + b1 * 0x1_0000 + b2 * 0x100 + b3
  }

  lemma {:induction false} BigEndianMeaning(n: u32)
    ensures Encodes32(BigEndian32(n), n)
  {
  }

  /** The layout of what the id hashes: schema, network, height, parent, input, guest, program, key,
      request; the numbers and the lengths of the texts in four bytes each. */
  lemma {:induction false} IdentityLayout(id: Identity) returns (numbers: seq<Bytes>)
    requires id.Fits()
    ensures |numbers| == 5
    ensures Encodes32(numbers[0], id.block.schemaVersion) && Encodes32(numbers[1], |id.block.network|)
    ensures Encodes32(numbers[2], id.block.height) && Encodes32(numbers[3], |id.program.guestId|)
    ensures Encodes32(numbers[4], |id.request|)
    ensures Flatten(id) == numbers[0] + numbers[1] + id.block.network + numbers[2] + id.block.parent + id.block.input
                           + numbers[3] + id.program.guestId + id.program.elf + id.program.vkey
                           + numbers[4] + id.request
  {
    numbers := [BigEndian32(id.block.schemaVersion), BigEndian32(|id.block.network|), BigEndian32(id.block.height),
      BigEndian32(|id.program.guestId|), BigEndian32(|id.request|)];
    BigEndianMeaning(id.block.schemaVersion);
    BigEndianMeaning(|id.block.network|);
    BigEndianMeaning(id.block.height);
    BigEndianMeaning(|id.program.guestId|);
    BigEndianMeaning(|id.request|);
  }

  /** Two byte strings witness a collision of the hash. */
  predicate Collision(c: Codec, a: Bytes, b: Bytes) {
    a != b && c.sha256(a) == c.sha256(b)
  }

  lemma {:induction false} SameHex(a: Text, b: Text)
    requires ValidateHex32(a).Ok? && ValidateHex32(b).Ok? && DecodeHex32(a) == DecodeHex32(b)
    ensures a == b
  {
    LowercaseHexIsCanonical(a);
    LowercaseHexIsCanonical(b);
  }

  /** Lowercase texts and their bytes determine each other, so the identity keeps every field. */
  lemma {:induction false} IdentityKeepsFields(c: Codec, a: ProofJob, b: ProofJob)
    requires ValidateHashes(a).Ok? && ValidateHashes(b).Ok?
    requires IdentityOf(c, a).Ok? && IdentityOf(c, a) == IdentityOf(c, b)
    requires c.canonical(a.request) == c.canonical(b.request) ==> a.request == b.request
    ensures a.(jobId := b.jobId) == b
  {
    SameHex(a.parentCheckpointSha256, b.parentCheckpointSha256);
    SameHex(a.inputFingerprint, b.inputFingerprint);
    SameHex(a.blockElfSha256, b.blockElfSha256);
    SameHex(a.vkeyHash, b.vkeyHash);
  }

  /** Job identity: two valid jobs with the same id are the same job, or their identities are a
      SHA-256 collision. The canonical encoding of requests has to tell the two requests apart. */
  lemma {:induction false} JobIdBindsJob(c: Codec, a: ProofJob, b: ProofJob)
    requires Validate(c, a).Ok? && Validate(c, b).Ok? && a.jobId == b.jobId
    requires c.canonical(a.request) == c.canonical(b.request) ==> a.request == b.request
    ensures a == b || Collision(c, Flatten(IdentityOf(c, a).value), Flatten(IdentityOf(c, b).value))
  {
    var x, y := IdentityOf(c, a).value, IdentityOf(c, b).value;
    HexRoundTrip(c.sha256(Flatten(x)));
    HexRoundTrip(c.sha256(Flatten(y)));
    if Flatten(x) == Flatten(y) {
      FlattenRoundTrip(x);
      FlattenRoundTrip(y);
      IdentityKeepsFields(c, a, b);
    }
  }

  // ---------- results ----------

  datatype Outcome = Success(response: Bytes, stderr: Text) | Failure(error: Text)

  datatype ProofResult = ProofResult(
    schemaVersion: u32, jobId: Text, network: Text, height: u32, parentCheckpointSha256: Text,
    inputFingerprint: Text, guestId: Text, blockElfSha256: Text, vkeyHash: Text, outcome: Outcome)

  function ResultFromJob(job: ProofJob, outcome: Outcome): ProofResult {
    ProofResult(job.schemaVersion, job.jobId, job.network, job.height, job.parentCheckpointSha256,
                job.inputFingerprint, job.guestId, job.blockElfSha256, job.vkeyHash, outcome)
  }

  predicate IdentityMatches(job: ProofJob, result: ProofResult) {
    && job.schemaVersion == result.schemaVersion && job.jobId == result.jobId && job.network == result.network
    && job.height == result.height && job.parentCheckpointSha256 == result.parentCheckpointSha256
    && job.inputFingerprint == result.inputFingerprint && job.guestId == result.guestId
    && job.blockElfSha256 == result.blockElfSha256 && job.vkeyHash == result.vkeyHash
  }

  function ValidateFor(c: Codec, result: ProofResult, job: ProofJob): Result<(), JobError> {
    var valid := Validate(c, job);
    if valid.Err? then valid else if !IdentityMatches(job, result) then Err(ResultMismatch) else Ok(())
  }

  /** A result is accepted for a job exactly if the job is valid and the result is one built from it:
      all nine fields are its own. */
  lemma {:induction false} ResultMeaning(c: Codec, result: ProofResult, job: ProofJob)
    ensures ValidateFor(c, result, job).Ok? <==>
              Validate(c, job).Ok? && result == ResultFromJob(job, result.outcome)
    ensures var r := ResultFromJob(job, result.outcome);
            && r.schemaVersion == job.schemaVersion && r.jobId == job.jobId && r.network == job.network
            && r.height == job.height && r.parentCheckpointSha256 == job.parentCheckpointSha256
            && r.inputFingerprint == job.inputFingerprint && r.guestId == job.guestId
            && r.blockElfSha256 == job.blockElfSha256 && r.vkeyHash == job.vkeyHash && r.outcome == result.outcome
  {
  }

  /** A result built from one valid job validates for that job, and for no other: a second one
      would be a collision of the two request encodings. */
  lemma {:induction false} ResultBindsJob(c: Codec, a: ProofJob, b: ProofJob, outcome: Outcome)
    requires Validate(c, a).Ok?
    requires c.canonical(a.request) == c.canonical(b.request) ==> a.request == b.request
    ensures ValidateFor(c, ResultFromJob(a, outcome), a).Ok?
    ensures ValidateFor(c, ResultFromJob(a, outcome), b).Ok? ==>
              a == b || Collision(c, Flatten(IdentityOf(c, a).value), Flatten(IdentityOf(c, b).value))
  {
    if ValidateFor(c, ResultFromJob(a, outcome), b).Ok? {
      JobIdBindsJob(c, a, b);
    }
  }

  // ---------- the buffer the source builds ----------

  method AppendLenPrefixed(output: Bytes, b: Bytes) returns (r: Result<Bytes, JobError>)
    ensures r == if |b| > U32_MAX then Err(FieldTooLong) else Ok(output + LengthPrefixed(b))
  {
    if |b| > U32_MAX {
      return Err(FieldTooLong);
    }
    var out := output + BigEndian32(|b|);
    out := out + b;
    assert out == output + LengthPrefixed(b);
    return Ok(out);
  }

  /** The first half of the buffer: schema, network, height, parent and input. */
  method AppendBlockPart(job: ProofJob) returns (r: Result<Bytes, JobError>)
    ensures r == if BlockPartOf(job).Err? then Err(BlockPartOf(job).error) else Ok(FlattenBlock(BlockPartOf(job).value))
  {
    var identity := BigEndian32(job.schemaVersion);
    r := AppendLenPrefixed(identity, job.network);
    if r.Err? {
      return;
    }
    identity := r.value + BigEndian32(job.height);
    var parent := DecodeHex32(job.parentCheckpointSha256);
    if parent.Err? {
      return Err(parent.error);
    }
    identity := identity + parent.value;
    var input := DecodeHex32(job.inputFingerprint);
    if input.Err? {
      return Err(input.error);
    }
    return Ok(identity + input.value);
  }

  /** The second half: guest, program and verifying key. */
  method AppendProgramPart(output: Bytes, job: ProofJob) returns (r: Result<Bytes, JobError>)
    ensures r == if ProgramPartOf(job).Err? then Err(ProgramPartOf(job).error)
            else Ok(output + FlattenProgram(ProgramPartOf(job).value))
  {
    r := AppendLenPrefixed(output, job.guestId);
    if r.Err? {
      return;
    }
    var elf := DecodeHex32(job.blockElfSha256);
    if elf.Err? {
      return Err(elf.error);
    }
    var vkey := DecodeHex32(job.vkeyHash);
    if vkey.Err? {
      return Err(vkey.error);
    }
    var identity := r.value + elf.value;
    identity := identity + vkey.value;
    assert identity == output + FlattenProgram(ProgramPartOf(job).value);
    return Ok(identity);
  }

  method ComputeJobId(c: Codec, job: ProofJob) returns (r: Result<Text, JobError>)
    ensures r == JobIdOf(c, job)
  {
    var identity := AppendBlockPart(job);
    if identity.Err? {
      return Err(identity.error);
    }
    identity := AppendProgramPart(identity.value, job);
    if identity.Err? {
      return Err(identity.error);
    }
    identity := AppendLenPrefixed(identity.value, c.canonical(job.request));
    if identity.Err? {
      return Err(identity.error);
    }
    return Ok(Sha256Hex(c, identity.value));
  }
}

/** The durable queue: leases as a fenced state machine, the submit script, and both together. */
module ProofQueue {
  import opened Wrappers
  import opened MachineInts
  import opened ProofJobs

  // ---------- leases ----------

  datatype JobState =
    | Queued
    | Claimed(worker: Text, lease: Text, expires: u64, attempt: u32)
    | Completed(at: u64, attempt: u32)
    | Failed(at: u64, attempt: u32, error: Text)

  datatype LeaseError = NotQueued | NotClaimed | FenceMismatch | Expired

  function ClaimState(state: JobState, worker: Text, lease: Text, expires: u64, attempt: u32):
      Result<JobState, LeaseError>
  {
    if !state.Queued? then Err(NotQueued) else Ok(Claimed(worker, lease, expires, attempt))
  }

  function HeartbeatState(state: JobState, worker: Text, lease: Text, expires: u64, now: u64):
      Result<JobState, LeaseError>
  {
    match state
    case Claimed(w, l, current, attempt) =>
      if w == worker && l == lease then
        if current <= now then Err(Expired) else Ok(Claimed(w, l, expires, attempt))
      else Err(FenceMismatch)
    case _ => Err(NotClaimed)
  }

  function CompleteState(state: JobState, worker: Text, lease: Text, now: u64): (r: Result<JobState, LeaseError>)
    ensures r.Ok? ==> r.value.Completed?
  {
    match state
    case Claimed(w, l, current, attempt) =>
      if w == worker && l == lease then
        if current <= now then Err(Expired) else Ok(Completed(now, attempt))
      else Err(FenceMismatch)
    case _ => Err(NotClaimed)
  }

  function FailState(state: JobState, worker: Text, lease: Text, now: u64, error: Text): Result<JobState, LeaseError> {
    var completed := CompleteState(state, worker, lease, now);
    if completed.Err? then Err(completed.error) else Ok(Failed(now, completed.value.attempt, error))
  }

  datatype LeaseOp =
    | Claim(worker: Text, lease: Text, expires: u64, attempt: u32)
    | Heartbeat(worker: Text, lease: Text, expires: u64)
    | Complete(worker: Text, lease: Text)
    | Fail(worker: Text, lease: Text, error: Text)

  /** One attempt at a given time. */
  datatype Attempt = Attempt(op: LeaseOp, now: u64)

  function Try(state: JobState, a: Attempt): Result<JobState, LeaseError> {
    match a.op
    case Claim(w, l, e, n) => ClaimState(state, w, l, e, n)
    case Heartbeat(w, l, e) => HeartbeatState(state, w, l, e, a.now)
    case Complete(w, l) => CompleteState(state, w, l, a.now)
    case Fail(w, l, error) => FailState(state, w, l, a.now, error)
  }

  /** A refused attempt leaves the state as it was. */
  function After(state: JobState, a: Attempt): JobState {
    var r := Try(state, a);
    if r.Ok? then r.value else state
  }

  function RunLeases(state: JobState, trace: seq<Attempt>): JobState {
    if trace == [] then state else After(RunLeases(state, trace[..|trace| - 1]), trace[|trace| - 1])
  }

  ghost predicate ClockAtLeast(trace: seq<Attempt>, t: nat) {
    forall a <- trace :: a.now >= t
  }

  predicate Terminal(state: JobState) {
    state.Completed? || state.Failed?
  }

  /** Which attempts succeed: a claim of a queued job, or anything else by the holder of a live
      lease; what a success leads to; and why the others are refused. */
  lemma {:induction false} AttemptCondition(state: JobState, a: Attempt)
    ensures Try(state, a).Ok? <==>
              if a.op.Claim? then state.Queued?
              else state.Claimed? && state.worker == a.op.worker && state.lease == a.op.lease && a.now < state.expires
    ensures Try(state, a).Ok? ==>
              match a.op
              case Claim(worker, lease, expires, attempt) => After(state, a) == Claimed(worker, lease, expires, attempt)
              case Heartbeat(_, _, expires) => After(state, a) == state.(expires := expires)
              case Complete(_, _) => After(state, a) == Completed(a.now, state.attempt)
              case Fail(_, _, error) => After(state, a) == JobState.Failed(a.now, state.attempt, error)
    ensures Try(state, a).Err? ==>
              && After(state, a) == state
              && Try(state, a).error == if a.op.Claim? then NotQueued
                                        else if !state.Claimed? then NotClaimed
                                        else if a.op.worker != state.worker
                                            || a.op.lease != state.lease then FenceMismatch
                                        else Expired
  {
  }

  /** Terminal states are absorbing. */
  lemma {:induction false} TerminalIsAbsorbing(state: JobState, trace: seq<Attempt>)
    requires Terminal(state)
    ensures RunLeases(state, trace) == state
  {
    if trace != [] {
      TerminalIsAbsorbing(state, trace[..|trace| - 1]);
    }
  }

  /** From the claim on, worker, lease and attempt never change, whoever tries what; a terminal
      state carries the attempt that was claimed. */
  lemma {:induction false} ClaimIsFenced(state: JobState, trace: seq<Attempt>)
    requires state.Claimed?
    ensures match RunLeases(state, trace)
            case Queued => false
            case Claimed(w, l, _, n) => w == state.worker && l == state.lease && n == state.attempt
            case Completed(_, n) => n == state.attempt
            case Failed(_, n, _) => n == state.attempt
  {
    if trace != [] {
      ClaimIsFenced(state, trace[..|trace| - 1]);
    }
  }

  /** Only the fence holder moves a claimed job: without an attempt that names its worker and
      lease, the state stays as it was claimed. */
  lemma {:induction false} OnlyHolderAdvances(state: JobState, trace: seq<Attempt>)
    requires state.Claimed?
    requires forall a <- trace :: a.op.Claim? || a.op.worker != state.worker || a.op.lease != state.lease
    ensures RunLeases(state, trace) == state
  {
    if trace != [] {
      OnlyHolderAdvances(state, trace[..|trace| - 1]);
      assert trace[|trace| - 1] in trace;
    }
  }

  /** The holder itself, and before its lease has expired. */
  predicate InTime(state: JobState, a: Attempt)
    requires state.Claimed?
  {
    !a.op.Claim? && a.op.worker == state.worker && a.op.lease == state.lease && a.now < state.expires
  }

  lemma {:induction false} UnattendedLeaseStays(state: JobState, trace: seq<Attempt>)
    requires state.Claimed? && forall a <- trace :: !InTime(state, a)
    ensures RunLeases(state, trace) == state
  {
    if trace != [] {
      UnattendedLeaseStays(state, trace[..|trace| - 1]);
      assert trace[|trace| - 1] in trace;
    }
  }

  lemma {:induction false} RunLeasesSnoc(state: JobState, trace: seq<Attempt>, a: Attempt)
    ensures RunLeases(state, trace + [a]) == After(RunLeases(state, trace), a)
  {
    assert (trace + [a])[..|trace|] == trace;
  }

  lemma {:induction false} RunLeasesConcat(state: JobState, a: seq<Attempt>, b: seq<Attempt>)
    ensures RunLeases(state, a + b) == RunLeases(RunLeases(state, a), b)
    decreases |b|
  {
    if b == [] {
      assert a + b == a;
    } else {
      RunLeasesConcat(state, a, b[..|b| - 1]);
      assert (a + b)[..|a + b| - 1] == a + b[..|b| - 1];
    }
  }

  /** The life of a lease: a queued job is claimed; whatever others try, and whoever comes late, the
      holder who comes before the expiry extends the lease, completes the job or fails it, with the
      attempt that was claimed. */
  lemma {:induction false} HolderFinishes(claim: Attempt, others: seq<Attempt>, last: Attempt)
    requires claim.op.Claim? && !last.op.Claim?
    requires last.op.worker == claim.op.worker && last.op.lease == claim.op.lease && last.now < claim.op.expires
    requires forall a <- others :: a.op.Claim? || a.op.worker != claim.op.worker || a.op.lease != claim.op.lease
                                   || a.now >= claim.op.expires
    ensures RunLeases(Queued, [claim]) == RunLeases(Queued, [claim] + others)
            == Claimed(claim.op.worker, claim.op.lease, claim.op.expires, claim.op.attempt)
    ensures RunLeases(Queued, [claim] + others + [last])
            == match last.op
               case Heartbeat(worker, lease, expires) => Claimed(worker, lease, expires, claim.op.attempt)
               case Complete(_, _) => Completed(last.now, claim.op.attempt)
               case Fail(_, _, error) => JobState.Failed(last.now, claim.op.attempt, error)
               case Claim(_, _, _, _) => Queued
  {
    RunLeasesSnoc(Queued, [], claim);
    assert [] + [claim] == [claim];
    RunLeasesConcat(Queued, [claim], others);
    UnattendedLeaseStays(RunLeases(Queued, [claim]), others);
    RunLeasesSnoc(Queued, [claim] + others, last);
  }

  /** Once the clock has reached the current expiry, no later attempt succeeds, the holder's
      included: the job stays claimed. */
  lemma {:induction false} ExpiredLeaseIsFrozen(state: JobState, trace: seq<Attempt>)
    requires state.Claimed? && ClockAtLeast(trace, state.expires)
    ensures RunLeases(state, trace) == state
    ensures forall i {:trigger trace[i]} :: 0 <= i < |trace| ==> Try(RunLeases(state, trace[..i]), trace[i]).Err?
  {
    if trace != [] {
      var n, earlier := |trace| - 1, trace[..|trace| - 1];
      ExpiredLeaseIsFrozen(state, earlier);
      assert trace[n] in trace;
      forall i {:trigger trace[i]} | 0 <= i < |trace|
        ensures Try(RunLeases(state, trace[..i]), trace[i]).Err?
      {
        if i < n {
          assert earlier[i] == trace[i] && earlier[..i] == trace[..i];
        }
      }
    }
  }

  // ---------- the submit script ----------

  /** The Redis keys of the queue; `pushed` is everything ever appended to the queue list. */
  datatype QueueDb = QueueDb(jobs: map<Text, Bytes>, states: map<Text, JobState>, attempts: map<Text, nat>,
      pushed: seq<Text>)

  datatype Reply = AlreadyThere | Created | JobIdCollision

  function SubmitScript(db: QueueDb, id: Text, json: Bytes): (QueueDb, Reply) {
    if id in db.jobs then
      if db.jobs[id] != json then (db, JobIdCollision) else (db, AlreadyThere)
    else
      (QueueDb(db.jobs[id := json], db.states[id := Queued], db.attempts[id := 0], db.pushed + [id]), Created)
  }

  class QueueRedis {
    var jobs: map<Text, Bytes>
    var states: map<Text, JobState>
    var attempts: map<Text, nat>
    ghost var pushed: seq<Text>
    var queue: seq<Text>

    constructor ()
      ensures Db() == QueueDb(map[], map[], map[], []) && queue == []
    {
      jobs, states, attempts, pushed, queue := map[], map[], map[], [], [];
    }

    ghost function Db(): QueueDb
      reads this
    {
      QueueDb(jobs, states, attempts, pushed)
    }

    /** The script, key by key. */
    method EvalSubmit(id: Text, json: Bytes) returns (reply: Reply)
      modifies this
      ensures (Db(), reply) == SubmitScript(old(Db()), id, json)
      ensures queue == if reply == Created then old(queue) + [id] else old(queue)
      ensures id !in old(jobs) ==>
                && reply == Created && jobs == old(jobs)[id := json] && states == old(states)[id := Queued]
                && attempts == old(attempts)[id := 0] && pushed == old(pushed) + [id]
      ensures id in old(jobs) ==>
                && reply == (if old(jobs)[id] == json then AlreadyThere else JobIdCollision)
                && Db() == old(Db())
    {
      if id in jobs {
        if jobs[id] != json {
          return JobIdCollision;
        }
        return AlreadyThere;
      }
      jobs := jobs[id := json];
      states := states[id := Queued];
      attempts := attempts[id := 0];
      queue := queue + [id];
      pushed := pushed + [id];
      return Created;
    }
  }

  datatype QueueEvent = Submit(job: ProofJob) | Lease(id: Text, attempt: Attempt)

  /** A submitted job is validated first; a lease attempt works on the stored state. */
  function ApplyEvent(c: Codec, db: QueueDb, e: QueueEvent): (QueueDb, Reply) {
    match e
    case Submit(job) =>
      if Validate(c, job).Ok? then SubmitScript(db, job.jobId, c.serialize(job)) else (db, AlreadyThere)
    case Lease(id, attempt) =>
      if id in db.states then (db.(states := db.states[id := After(db.states[id], attempt)]), AlreadyThere)
          else (db, AlreadyThere)
  }

  function RunQueue(c: Codec, events: seq<QueueEvent>): QueueDb {
    if events == [] then QueueDb(map[], map[], map[], [])
    else ApplyEvent(c, RunQueue(c, events[..|events| - 1]), events[|events| - 1]).0
  }

  /** No two valid jobs of a run have identities that collide, nor requests that encode alike. */
  ghost predicate NoCollisions(c: Codec, events: seq<QueueEvent>) {
    forall d, e ::
      (d in events && e in events && d.Submit? && e.Submit?
       && Validate(c, d.job).Ok? && Validate(c, e.job).Ok?) ==>
      && !Collision(c, Flatten(IdentityOf(c, d.job).value), Flatten(IdentityOf(c, e.job).value))
      && (c.canonical(d.job.request) == c.canonical(e.job.request) ==> d.job.request == e.job.request)
  }

  ghost predicate Stored(c: Codec, events: seq<QueueEvent>, id: Text, json: Bytes) {
    exists e :: e in events && e.Submit? && Validate(c, e.job).Ok? && e.job.jobId == id && c.serialize(e.job) == json
  }

  /** Every stored job was submitted, under its own id. */
  ghost predicate AllStored(c: Codec, events: seq<QueueEvent>, db: QueueDb) {
    forall id {:trigger id in db.jobs} :: id in db.jobs ==> Stored(c, events, id, db.jobs[id])
  }

  /** Every stored job has a state, and was pushed exactly once. */
  ghost predicate PushedOnce(db: QueueDb) {
    && db.states.Keys == db.jobs.Keys == db.attempts.Keys
    && (forall id {:trigger id in db.pushed} :: id in db.pushed <==> id in db.jobs)
    && (forall i, j :: 0 <= i < j < |db.pushed| ==> db.pushed[i] != db.pushed[j])
  }

  predicate Creates(c: Codec, db: QueueDb, e: QueueEvent) {
    e.Submit? && Validate(c, e.job).Ok? && e.job.jobId !in db.jobs
  }

  lemma {:induction false} OtherEventsCreateNothing(c: Codec, db: QueueDb, e: QueueEvent)
    requires db.states.Keys == db.jobs.Keys && !Creates(c, db, e)
    ensures var db' := ApplyEvent(c, db, e).0;
            && db'.jobs == db.jobs && db'.pushed == db.pushed && db'.states.Keys == db.states.Keys
            && db'.attempts == db.attempts
  {
  }

  lemma {:induction false} NewIdIsPushedOnce(db: QueueDb, id: Text, json: Bytes)
    requires PushedOnce(db) && id !in db.jobs
    ensures PushedOnce(SubmitScript(db, id, json).0)
  {
    var db' := SubmitScript(db, id, json).0;
    forall k {:trigger k in db'.pushed}
      ensures k in db'.pushed <==> k in db'.jobs
    {
      assert k in db'.pushed <==> k in db.pushed || k == id;
    }
    assert forall i :: 0 <= i < |db.pushed| ==> db.pushed[i] in db.pushed;
  }

  /** Over any interleaving of submits and lease attempts, each id is pushed at most once. */
  lemma {:induction false} EachIdEnqueuedOnce(c: Codec, events: seq<QueueEvent>)
    ensures PushedOnce(RunQueue(c, events))
  {
    if events != [] {
      var db, last := RunQueue(c, events[..|events| - 1]), events[|events| - 1];
      EachIdEnqueuedOnce(c, events[..|events| - 1]);
      if Creates(c, db, last) {
        NewIdIsPushedOnce(db, last.job.jobId, c.serialize(last.job));
      } else {
        OtherEventsCreateNothing(c, db, last);
      }
    }
  }

  lemma {:induction false} StoredStep(c: Codec, events: seq<QueueEvent>, db: QueueDb, last: QueueEvent)
    requires AllStored(c, events, db) && db.states.Keys == db.jobs.Keys
    ensures AllStored(c, events + [last], ApplyEvent(c, db, last).0)
  {
    var db', all := ApplyEvent(c, db, last).0, events + [last];
    if !Creates(c, db, last) {
      OtherEventsCreateNothing(c, db, last);
    }
    forall id {:trigger id in db'.jobs} | id in db'.jobs
      ensures Stored(c, all, id, db'.jobs[id])
    {
      if id in db.jobs {
        var e :| e in events && e.Submit? && Validate(c, e.job).Ok? && e.job.jobId == id
            && c.serialize(e.job) == db.jobs[id];
        assert e in all;
      } else {
        assert last in all;
      }
    }
  }

  lemma {:induction false} StoredJobsWereSubmitted(c: Codec, events: seq<QueueEvent>)
    ensures AllStored(c, events, RunQueue(c, events))
  {
    if events != [] {
      var earlier, last := events[..|events| - 1], events[|events| - 1];
      StoredJobsWereSubmitted(c, earlier);
      EachIdEnqueuedOnce(c, earlier);
      StoredStep(c, earlier, RunQueue(c, earlier), last);
      assert earlier + [last] == events;
    }
  }

  /** Absent collisions of the hash, the script never reports one: whatever happened before, a
      valid job is created, or found as it was stored. */
  lemma {:induction false} SubmitNeverCollides(c: Codec, events: seq<QueueEvent>, job: ProofJob)
    requires NoCollisions(c, events + [Submit(job)])
    ensures ApplyEvent(c, RunQueue(c, events), Submit(job)).1 != JobIdCollision
  {
    StoredJobsWereSubmitted(c, events);
    var db := RunQueue(c, events);
    if Validate(c, job).Ok? && job.jobId in db.jobs {
      var e :| e in events && e.Submit? && Validate(c, e.job).Ok? && e.job.jobId == job.jobId
          && c.serialize(e.job) == db.jobs[job.jobId];
      var all := events + [Submit(job)];
      assert e in all && Submit(job) in all;
      JobIdBindsJob(c, e.job, job);
    }
  }

  /** Submitting again resets nothing: once an id is known, only lease attempts on that id change
      its state. */
  lemma {:induction false} ResubmitResetsNothing(c: Codec, db: QueueDb, id: Text, e: QueueEvent)
    requires id in db.jobs && id in db.states
    ensures var db' := ApplyEvent(c, db, e).0;
            && id in db'.jobs && db'.jobs[id] == db.jobs[id]
            && (id in db.attempts ==> id in db'.attempts && db'.attempts[id] == db.attempts[id])
            && id in db'.states
            && db'.states[id] == (if e.Lease? && e.id == id then After(db.states[id], e.attempt) else db.states[id])
  {
  }

  /** The attempts made on one job, in order. */
  function AttemptsOn(events: seq<QueueEvent>, id: Text): seq<Attempt> {
    if events == [] then []
    else
      var earlier, last := AttemptsOn(events[..|events| - 1], id), events[|events| - 1];
      if last.Lease? && last.id == id then earlier + [last.attempt] else earlier
  }

  lemma {:induction false} RunQueueSnoc(c: Codec, events: seq<QueueEvent>, e: QueueEvent)
    ensures RunQueue(c, events + [e]) == ApplyEvent(c, RunQueue(c, events), e).0
  {
    assert (events + [e])[..|events|] == events;
  }

  /** The queue runs each job on its own: from the moment an id is known, whatever is submitted and
      whoever works on the other jobs, the stored job stays and its state is what the attempts on
      that id alone make of it. */
  lemma {:induction false} JobsRunApart(c: Codec, before: seq<QueueEvent>, after: seq<QueueEvent>, id: Text)
    requires id in RunQueue(c, before).jobs
    ensures var known, now := RunQueue(c, before), RunQueue(c, before + after);
            && id in known.states && id in now.states && id in now.jobs && now.jobs[id] == known.jobs[id]
            && id in known.attempts && id in now.attempts && now.attempts[id] == known.attempts[id]
            && now.states[id] == RunLeases(known.states[id], AttemptsOn(after, id))
    decreases |after|
  {
    EachIdEnqueuedOnce(c, before);
    if after == [] {
      assert before + after == before;
    } else {
      var earlier, last := after[..|after| - 1], after[|after| - 1];
      JobsRunApart(c, before, earlier, id);
      assert before + after == before + earlier + [last];
      RunQueueSnoc(c, before + earlier, last);
      ResubmitResetsNothing(c, RunQueue(c, before + earlier), id, last);
      if last.Lease? && last.id == id {
        RunLeasesSnoc(RunQueue(c, before).states[id], AttemptsOn(earlier, id), last.attempt);
      }
    }
  }

  lemma {:induction false} AttemptsWereMade(events: seq<QueueEvent>, id: Text, a: Attempt)
    ensures a in AttemptsOn(events, id) <==> Lease(id, a) in events
  {
    if events != [] {
      var earlier, last := events[..|events| - 1], events[|events| - 1];
      AttemptsWereMade(earlier, id, a);
      assert events == earlier + [last];
    }
  }

  /** In the queue, a claimed job stays as it is until its own holder comes back in time: no other
      worker, no late attempt and no resubmission moves it. */
  lemma {:induction false} OnlyHolderMovesJob(c: Codec, before: seq<QueueEvent>, after: seq<QueueEvent>, id: Text)
    requires id in RunQueue(c, before).states && RunQueue(c, before).states[id].Claimed?
    ensures var known, now := RunQueue(c, before).states[id], RunQueue(c, before + after).states;
            id in now && (now[id] != known ==> exists a :: Lease(id, a) in after && InTime(known, a))
  {
    EachIdEnqueuedOnce(c, before);
    JobsRunApart(c, before, after, id);
    var known, trace := RunQueue(c, before).states[id], AttemptsOn(after, id);
    if forall a <- trace :: !InTime(known, a) {
      UnattendedLeaseStays(known, trace);
    } else {
      var a :| a in trace && InTime(known, a);
      AttemptsWereMade(after, id, a);
    }
  }

  /** In the queue, worker, lease and attempt stay those of the claim; a job that is done stays done. */
  ghost predicate FenceKept(known: JobState, now: JobState) {
    match known
    case Queued => true
    case Claimed(worker, lease, _, attempt) =>
      (match now
       case Queued => false
       case Claimed(w, l, _, n) => w == worker && l == lease && n == attempt
       case Completed(_, n) => n == attempt
       case Failed(_, n, _) => n == attempt)
    case _ => now == known
  }

  lemma {:induction false} QueueKeepsFences(c: Codec, before: seq<QueueEvent>, after: seq<QueueEvent>, id: Text)
    requires id in RunQueue(c, before).states
    ensures var now := RunQueue(c, before + after).states;
            id in now && FenceKept(RunQueue(c, before).states[id], now[id])
  {
    EachIdEnqueuedOnce(c, before);
    JobsRunApart(c, before, after, id);
    var known, trace := RunQueue(c, before).states[id], AttemptsOn(after, id);
    if known.Claimed? {
      ClaimIsFenced(known, trace);
    } else if Terminal(known) {
      TerminalIsAbsorbing(known, trace);
    }
  }
  /** The job is stored, queued, and was never attempted. */
  ghost predicate StartsQueued(db: QueueDb, id: Text, json: Bytes) {
    && id in db.jobs && db.jobs[id] == json && id in db.states && db.states[id] == Queued
    && id in db.attempts && db.attempts[id] == 0
  }

  lemma {:induction false} EventCreates(c: Codec, db: QueueDb, e: QueueEvent, id: Text)
    requires id !in db.jobs && id in ApplyEvent(c, db, e).0.jobs
    ensures e.Submit? && Validate(c, e.job).Ok? && e.job.jobId == id
    ensures StartsQueued(ApplyEvent(c, db, e).0, id, c.serialize(e.job))
  {
  }

  lemma {:induction false} JobCreated(c: Codec, events: seq<QueueEvent>, id: Text) returns (i: nat)
    requires id in RunQueue(c, events).jobs
    ensures i < |events| && events[i].Submit? && Validate(c, events[i].job).Ok? && events[i].job.jobId == id
    ensures id !in RunQueue(c, events[..i]).jobs
    ensures StartsQueued(RunQueue(c, events[..i + 1]), id, c.serialize(events[i].job))
    decreases |events|
  {
    i := |events| - 1;
    var earlier := events[..i];
    if id in RunQueue(c, earlier).jobs {
      i := JobCreated(c, earlier, id);
      assert events[..i] == earlier[..i] && events[..i + 1] == earlier[..i + 1];
    } else {
      RunQueueSnoc(c, earlier, events[i]);
      assert events[..i + 1] == events == earlier + [events[i]];
      EventCreates(c, RunQueue(c, earlier), events[i], id);
    }
  }

  /** The life of a job, from the submit that created it on: it was valid and new, and starts queued
      and never attempted; since then only the lease attempts on its own id have changed its state. */
  lemma {:induction false} JobLife(c: Codec, events: seq<QueueEvent>, id: Text) returns (i: nat)
    requires id in RunQueue(c, events).jobs
    ensures i < |events| && events[i].Submit? && Validate(c, events[i].job).Ok? && events[i].job.jobId == id
    ensures id !in RunQueue(c, events[..i]).jobs
    ensures var db := RunQueue(c, events);
            && db.jobs[id] == c.serialize(events[i].job)
            && id in db.attempts && db.attempts[id] == 0
            && id in db.states && db.states[id] == RunLeases(Queued, AttemptsOn(events[i + 1..], id))
  {
    i := JobCreated(c, events, id);
    var before, after := events[..i + 1], events[i + 1..];
    assert before + after == events;
    JobsRunApart(c, before, after, id);
  }
}
