/** Reassembly of content served in chunks, and publication of a download without overwriting. */
module Fetch {
  import opened Records
  import opened Files

  const MAX_INPUT: nat := 4194304
  const MAX_BUNDLE: nat := 9437184
  const CHUNK_BYTES: nat := 16384
  const MAX_CHUNK_TEXT: nat := 21848

  /** What the whole content claims to be. */
  datatype Claim = Claim(id: nat, bytes: int, sha256: Sha256)

  datatype Part = Part(claim: Claim, offset: int, text: Base64, next: Option<int>)

  /** A server: its reply to the i-th call, asked at an offset. None is an error or a reply of the
      wrong shape. Nothing says that two replies agree. */
  type Server = (nat, nat) -> Option<Part>

  /** `part` continues at `offset`, by 1 to 16384 bytes, and announces a next offset exactly when
      more is to come. */
  predicate Continues(part: Part, claim: Claim, offset: nat) {
    && part.claim == claim && part.offset == offset
    && part.text.Encoded? && 1 <= |part.text.data| <= CHUNK_BYTES
    && var end := offset + |part.text.data|;
       && end <= claim.bytes
       && part.next == if end < claim.bytes then Some(end) else None
  }

  function Joined(parts: seq<Part>): Data {
    if |parts| == 0 then []
    else
      var last := parts[|parts| - 1];
      Joined(parts[..|parts| - 1]) + (if last.text.Encoded? then last.text.data else [])
  }

  /** A contiguous cover of [0, |Joined(parts)|) under one claim. */
  ghost predicate Gapless(parts: seq<Part>, claim: Claim) {
    |parts| > 0 ==>
      var before := parts[..|parts| - 1];
      Gapless(before, claim) && Continues(parts[|parts| - 1], claim, |Joined(before)|)
  }

  /** Every part is what the server answered at the place where it was used. */
  ghost predicate Answered(parts: seq<Part>, server: Server) {
    forall i | 0 <= i < |parts| :: server(i, |Joined(parts[..i])|) == Some(parts[i])
  }

  lemma AppendPart(parts: seq<Part>, claim: Claim, server: Server, part: Part)
    requires Gapless(parts, claim) && Answered(parts, server)
    requires Continues(part, claim, |Joined(parts)|) && server(|parts|, |Joined(parts)|) == Some(part)
    ensures Gapless(parts + [part], claim) && Answered(parts + [part], server)
    ensures Joined(parts + [part]) == Joined(parts) + part.text.data
  {
    var more := parts + [part];
    assert more[..|parts|] == parts;
    forall i | 0 <= i < |more| ensures server(i, |Joined(more[..i])|) == Some(more[i]) {
      assert more[..i] == parts[..i];
    }
  }

  /** What each part of a gapless cover is: it repeats the one claim, starts where the parts before
      it end, holds one chunk, and announces a next offset, its own end, exactly when more is to
      come. */
  lemma {:induction false} CoverIsExact(parts: seq<Part>, claim: Claim, i: nat)
    requires Gapless(parts, claim) && i < |parts|
    ensures parts[i].claim == claim && parts[i].offset == |Joined(parts[..i])|
    ensures parts[i].text.Encoded? && 1 <= |parts[i].text.data| <= 16384
    ensures var end := parts[i].offset + |parts[i].text.data|;
            end <= claim.bytes && parts[i].next == if end == claim.bytes then None else Some(end)
    ensures i + 1 < |parts| ==> parts[i].next == Some(parts[i + 1].offset)
  {
    if i + 1 < |parts| {
      var before := parts[..|parts| - 1];
      CoverIsExact(before, claim, i);
      assert before[..i] == parts[..i] && before[..i + 1] == parts[..i + 1];
      assert parts[..i + 1][..i] == parts[..i];
    }
  }

  /** A server that serves exactly `content`: chunks of the length asked for, or what is left. */
  ghost predicate Serves(server: Server, content: Data, claim: Claim) {
    && claim.bytes == |content| > 0 && claim.sha256 == Sha256(content)
    && forall i: nat, offset: nat | offset < |content| :: HonestReply(server(i, offset), content, claim, offset)
  }

  predicate HonestReply(reply: Option<Part>, content: Data, claim: Claim, offset: nat)
    requires offset < |content|
  {
    var end := if offset + CHUNK_BYTES < |content| then offset + CHUNK_BYTES else |content|;
    reply.Some? && reply.value.claim == claim && reply.value.offset == offset
    && reply.value.text.Encoded? && reply.value.text.data == content[offset..end]
    && reply.value.next == if end < |content| then Some(end) else None
  }

  /** The text bound never refuses a full chunk; by itself it would admit two more bytes. */
  lemma ChunkTextBound(n: nat)
    ensures TextLength(n) <= MAX_CHUNK_TEXT <==> n <= CHUNK_BYTES + 2
  {
    if n > CHUNK_BYTES + 2 {
      assert (n + 2) / 3 >= (CHUNK_BYTES + 5) / 3;
    } else {
      assert (n + 2) / 3 <= (CHUNK_BYTES + 4) / 3;
    }
  }

  /** How far an honest server's content has come after `k` chunks. */
  ghost predicate OnTrack(parts: seq<Part>, content: Data) {
    var offset := |Joined(parts)|;
    && offset <= |content| && Joined(parts) == content[..offset]
    && offset == (if CHUNK_BYTES * |parts| < |content| then CHUNK_BYTES * |parts| else |content|)
    && |parts| <= (|content| + CHUNK_BYTES - 1) / CHUNK_BYTES
  }

  lemma StaysOnTrack(parts: seq<Part>, content: Data, claim: Claim, server: Server, part: Part)
    requires Serves(server, content, claim) && OnTrack(parts, content) && |Joined(parts)| < |content|
    requires server(|parts|, |Joined(parts)|) == Some(part)
    ensures Continues(part, claim, |Joined(parts)|) && OnTrack(parts + [part], content)
    ensures Base64Length(part.text) <= MAX_CHUNK_TEXT
  {
    var offset := |Joined(parts)|;
    assert HonestReply(server(|parts|, offset), content, claim, offset);
    assert (parts + [part])[..|parts|] == parts;
    var end := offset + |part.text.data|;
    assert content[..offset] + content[offset..end] == content[..end];
    ChunkTextBound(|part.text.data|);
  }

  /** What the loop of `fetch` knows: the parts so far are a gapless cover of what was read, under
      the claim of the first reply, and more is to come. */
  ghost predicate Reading(server: Server, parts: seq<Part>, chunks: Data, claim: Option<Claim>) {
    && |parts| <= |chunks| && chunks == Joined(parts) && Answered(parts, server)
    && (claim.Some? <==> |parts| > 0)
    && (claim.Some? ==>
          && |chunks| < claim.value.bytes <= MAX_INPUT && Gapless(parts, claim.value)
          && server(0, 0).Some? && server(0, 0).value.claim == claim.value)
  }

  /** If the server serves some content, what was read is a part of it. */
  ghost predicate Faithful(server: Server, parts: seq<Part>, claim: Option<Claim>) {
    forall content, c | Serves(server, content, c) && |content| <= MAX_INPUT :: Follows(parts, claim, content, c)
  }

  ghost predicate Follows(parts: seq<Part>, claim: Option<Claim>, content: Data, c: Claim) {
    OnTrack(parts, content) && |Joined(parts)| < |content| && (claim.Some? ==> claim.value == c)
  }

  predicate Acceptable(part: Part, claim: Option<Claim>, offset: nat) {
    && 1 <= part.claim.bytes <= MAX_INPUT && (claim.Some? ==> part.claim == claim.value)
    && Base64Length(part.text) <= MAX_CHUNK_TEXT && Continues(part, part.claim, offset)
  }

  /** The replies of a server that serves some content are acceptable, and lead on. */
  lemma ServedIsAccepted(server: Server, parts: seq<Part>, chunks: Data, claim: Option<Claim>, content: Data, c: Claim)
    requires Reading(server, parts, chunks, claim) && Serves(server, content, c) && |content| <= MAX_INPUT
    requires Follows(parts, claim, content, c)
    ensures var reply := server(|parts|, |chunks|);
            && reply.Some? && Acceptable(reply.value, claim, |chunks|) && reply.value.claim == c
            && OnTrack(parts + [reply.value], content)
  {
    assert HonestReply(server(|parts|, |chunks|), content, c, |chunks|);
    StaysOnTrack(parts, content, c, server, server(|parts|, |chunks|).value);
  }

  lemma ReadsOn(server: Server, parts: seq<Part>, chunks: Data, claim: Option<Claim>, part: Part)
    requires Reading(server, parts, chunks, claim) && server(|parts|, |chunks|) == Some(part)
    requires Acceptable(part, claim, |chunks|)
    ensures |parts| < part.claim.bytes <= MAX_INPUT && server(0, 0).Some? && server(0, 0).value.claim == part.claim
    ensures Gapless(parts + [part], part.claim) && Answered(parts + [part], server)
    ensures Joined(parts + [part]) == chunks + part.text.data
    ensures |chunks + part.text.data| <= part.claim.bytes
    ensures |chunks + part.text.data| < part.claim.bytes ==>
              Reading(server, parts + [part], chunks + part.text.data, Some(part.claim))
  {
    AppendPart(parts, part.claim, server, part);
  }

  /** No content small enough is served. */
  ghost predicate Unserved(server: Server) {
    forall content, c | Serves(server, content, c) :: |content| > MAX_INPUT
  }

  /** Whatever is served is this content, in as few calls as possible. */
  ghost predicate Exactly(server: Server, data: Data, claim: Claim, calls: nat) {
    forall content, c | Serves(server, content, c) && |content| <= MAX_INPUT ::
      content == data && c == claim && calls == (|content| + CHUNK_BYTES - 1) / CHUNK_BYTES
  }

  lemma RefusedMeansUnserved(server: Server, parts: seq<Part>, chunks: Data, claim: Option<Claim>)
    requires Reading(server, parts, chunks, claim) && Faithful(server, parts, claim)
    requires server(|parts|, |chunks|).None? || !Acceptable(server(|parts|, |chunks|).value, claim, |chunks|)
    ensures Unserved(server)
  {
    forall content, c | Serves(server, content, c) ensures |content| > MAX_INPUT {
      if |content| <= MAX_INPUT { ServedIsAccepted(server, parts, chunks, claim, content, c); }
    }
  }

  lemma StaysFaithful(server: Server, parts: seq<Part>, chunks: Data, claim: Option<Claim>, part: Part)
    requires Reading(server, parts, chunks, claim) && Faithful(server, parts, claim)
    requires server(|parts|, |chunks|) == Some(part) && Acceptable(part, claim, |chunks|)
    ensures |chunks + part.text.data| < part.claim.bytes ==> Faithful(server, parts + [part], Some(part.claim))
    ensures |chunks + part.text.data| == part.claim.bytes ==>
              Exactly(server, chunks + part.text.data, part.claim, |parts| + 1)
  {
    ReadsOn(server, parts, chunks, claim, part);
    forall content, c | Serves(server, content, c) && |content| <= MAX_INPUT
      ensures c == part.claim && OnTrack(parts + [part], content)
    {
      ServedIsAccepted(server, parts, chunks, claim, content, c);
    }
  }

  /** `fetch`: against any server it stops within the byte count its first reply fixed, and what it
      returns is one gapless cover under one claim whose digest matches; against a server that
      serves some content it returns exactly that content. `payload` is the identity inside the
      decoded and validated bundle. */
  method FetchInput(server: Server, payload: Data -> Option<nat>)
    returns (r: Option<Data>, calls: nat, ghost parts: seq<Part>, ghost claim: Option<Claim>)
    ensures 1 <= calls <= MAX_INPUT
    ensures server(0, 0).Some? && server(0, 0).value.claim.bytes > 0 ==> calls <= server(0, 0).value.claim.bytes
    ensures r.Some? ==>
              && claim.Some? && calls == |parts| && Answered(parts, server) && Gapless(parts, claim.value)
              && r.value == Joined(parts) && |r.value| == claim.value.bytes && 1 <= |r.value| <= 4194304
              && claim.value.sha256 == Sha256(r.value) && payload(r.value) == Some(claim.value.id)
    ensures forall content, c | Serves(server, content, c) && |content| <= MAX_INPUT && payload(content) == Some(c.id) ::
              r == Some(content) && calls == (|content| + CHUNK_BYTES - 1) / CHUNK_BYTES
  {
    var chunks: Data := [];
    var descriptor: Option<Claim> := None;
    calls, parts := 0, [];
    while true
      invariant calls == |parts| && Reading(server, parts, chunks, descriptor)
      invariant Faithful(server, parts, descriptor)
      decreases MAX_INPUT - |chunks|
    {
      claim := descriptor;
      var reply := server(calls, |chunks|);
      calls := calls + 1;
      if reply.None? || !Acceptable(reply.value, descriptor, |chunks|) {
        RefusedMeansUnserved(server, parts, chunks, descriptor);
        return None, calls, parts, claim;
      }
      var part := reply.value;
      ReadsOn(server, parts, chunks, descriptor, part);
      StaysFaithful(server, parts, chunks, descriptor, part);
      descriptor := Some(part.claim);
      chunks, parts, claim := chunks + part.text.data, parts + [part], descriptor;
      if |chunks| == part.claim.bytes { break; }
    }
    if descriptor.value.sha256 != Sha256(chunks) || payload(chunks) != Some(descriptor.value.id) { return None, calls, parts, claim; }
    return Some(chunks), calls, parts, claim;
  }

  // ---- download -------------------------------------------------------------------------------------

  type Name = nat

  /** A directory that other processes change too. `foreign` is what they made of it: the directory
      as it would be without our own staged file. */
  class Folder {
    var entries: map<Name, Data>
    ghost var foreign: map<Name, Data>

    ghost predicate Holding(staged: Name, data: Data)
      reads this
    {
      staged !in foreign && entries == foreign[staged := data]
    }

    constructor (entries: map<Name, Data>)
      ensures this.entries == entries == foreign
    {
      this.entries, this.foreign := entries, entries;
    }

    /** Others create, replace and remove names, but not the staged one. */
    method Others(staged: Name, data: Data)
      requires Holding(staged, data)
      modifies this
      ensures Holding(staged, data)
    {
      var theirs: map<Name, Data> := *;
      theirs := theirs - {staged};
      foreign := theirs;
      entries := theirs[staged := data];
    }

    /** `mkstemp`: a name nobody uses. */
    method Stage(staged: Name)
      requires staged !in entries && entries == foreign
      modifies this`entries
      ensures Holding(staged, [])
    {
      entries := entries[staged := []];
    }

    method Append(staged: Name, before: Data, data: Data)
      requires Holding(staged, before)
      modifies this`entries
      ensures Holding(staged, before + data)
    {
      entries := entries[staged := entries[staged] + data];
    }

    /** `link`: it refuses an existing name, and never replaces it. */
    method Link(staged: Name, destination: Name, data: Data) returns (ok: bool)
      requires Holding(staged, data) && staged != destination
      modifies this`entries
      ensures ok <==> destination !in foreign
      ensures entries == if ok then foreign[staged := data][destination := data] else foreign[staged := data]
    {
      if destination in entries { return false; }
      entries := entries[destination := entries[staged]];
      return true;
    }

    method Unlink(staged: Name)
      modifies this`entries
      ensures entries == old(entries) - {staged}
    {
      entries := entries - {staged};
    }
  }

  /** What `download` reads of its server: a descriptor first, then parts that repeat it. */
  datatype Shelf = Shelf(descriptor: Option<Claim>, parts: Server)

  /** `data` is one gapless cover of what the claim says, and its digest matches. */
  ghost predicate Covers(server: Server, claim: Claim, data: Data) {
    && 1 <= |data| == claim.bytes <= 9437184 && claim.sha256 == Sha256(data)
    && exists parts :: Gapless(parts, claim) && Answered(parts, server) && data == Joined(parts)
  }

  /** The server serves this content, under the descriptor it gave first. */
  ghost predicate Offers(shelf: Shelf, content: Data) {
    shelf.descriptor.Some? && |content| <= MAX_BUNDLE && Serves(shelf.parts, content, shelf.descriptor.value)
  }

  /** The download loop up to the digest. */
  method Gather(server: Server, claim: Claim, folder: Folder, staged: Name)
    returns (ok: bool, calls: nat, data: Data)
    requires 1 <= claim.bytes <= MAX_BUNDLE && folder.Holding(staged, [])
    modifies folder
    ensures folder.Holding(staged, data) && calls <= claim.bytes
    ensures ok ==> Covers(server, claim, data)
    ensures forall content | Serves(server, content, claim) ::
              ok && data == content && calls == (|content| + CHUNK_BYTES - 1) / CHUNK_BYTES
  {
    calls, data := 0, [];
    ghost var parts: seq<Part> := [];
    while |data| < claim.bytes
      invariant calls == |parts| <= |data| <= claim.bytes && data == Joined(parts) && folder.Holding(staged, data)
      invariant Gapless(parts, claim) && Answered(parts, server)
      invariant forall content | Serves(server, content, claim) :: OnTrack(parts, content)
      decreases claim.bytes - |data|
    {
      folder.Others(staged, data);
      var reply := server(calls, |data|);
      calls := calls + 1;
      forall content | Serves(server, content, claim)
        ensures reply.Some? && OnTrack(parts + [reply.value], content) && Continues(reply.value, claim, |data|)
      {
        assert HonestReply(server(|parts|, |data|), content, claim, |data|);
        StaysOnTrack(parts, content, claim, server, reply.value);
      }
      if reply.None? || !Continues(reply.value, claim, |data|) { return false, calls, data; }
      AppendPart(parts, claim, server, reply.value);
      folder.Append(staged, data, reply.value.text.data);
      data, parts := data + reply.value.text.data, parts + [reply.value];
    }
    ok := claim.sha256 == Sha256(data);
  }

  lemma StagedIsGone(m: map<Name, Data>, staged: Name, destination: Name, data: Data)
    requires staged !in m && staged != destination
    ensures m[staged := data] - {staged} == m
    ensures m[staged := data][destination := data] - {staged} == m[destination := data]
  {
  }

  /** The end of `download`: the link when the digest matched, and the staged name removed always. */
  method Publish(folder: Folder, staged: Name, destination: Name, data: Data, matched: bool) returns (ok: bool)
    requires folder.Holding(staged, data) && staged != destination
    modifies folder
    ensures ok <==> matched && destination !in folder.foreign
    ensures folder.entries == if ok then folder.foreign[destination := data] else folder.foreign
  {
    ok := false;
    folder.Others(staged, data);
    if matched { ok := folder.Link(staged, destination, data); }
    StagedIsGone(folder.foreign, staged, destination, data);
    folder.Unlink(staged);
  }

  /** `download`. Whatever the server answers and whatever others do in the directory meanwhile, the
      directory ends as the others left it, but for a successful download, which adds exactly one
      name that was free, holding bytes that match the descriptor's digest. */
  method Download(shelf: Shelf, folder: Folder, staged: Name, destination: Name) returns (ok: bool, data: Data)
    requires staged !in folder.entries && staged != destination && folder.entries == folder.foreign
    modifies folder
    ensures folder.entries == if ok then folder.foreign[destination := data] else folder.foreign
    ensures ok ==> shelf.descriptor.Some? && Covers(shelf.parts, shelf.descriptor.value, data) && destination !in folder.foreign
    ensures forall content | Offers(shelf, content) :: (ok <==> destination !in folder.foreign) && (ok ==> data == content)
  {
    data := [];
    if shelf.descriptor.None? || !(1 <= shelf.descriptor.value.bytes <= MAX_BUNDLE) { return false, data; }
    var claim := shelf.descriptor.value;
    folder.Stage(staged);
    var calls;
    ok, calls, data := Gather(shelf.parts, claim, folder, staged);
    ok := Publish(folder, staged, destination, data, ok);
  }
}
