/**
 * The local artifact store: two files published one after the other, a crash
 * possible between any two file operations, and what readers can rely on.
 */
module ArtifactStore {
  import opened Outcomes
  import opened Texts

  type Bytes = seq<bv8>

  /** The digest of a payload, one-to-one with it. */
  datatype ContentDigest = ContentDigest(of: Bytes)

  /** A reference id, one-to-one with the fields it is the digest of. */
  datatype ReferenceId = ReferenceId(artifactId: string, digest: ContentDigest, namespace: string)

  datatype Reference = Reference(
    referenceId: ReferenceId, artifactId: string, namespace: string, local: bool,
    digest: ContentDigest, contentType: string)

  datatype Publication = Publication(artifactId: string, digest: ContentDigest, contentType: string)

  datatype StoreError = InvalidReference | DigestMismatch | AlreadyExists | Corrupt | NotFound | Crashed

  /** The directory of each artifact id: its published files and its temporary ones. */
  datatype Files = Files(
    payloads: map<string, Bytes>, metadata: map<string, Reference>,
    payloadTmps: map<string, Bytes>, metadataTmps: map<string, Reference>)

  const Empty := Files(map[], map[], map[], map[])

  predicate Contains(s: string, c: char) { exists i :: 0 <= i < |s| && s[i] == c }

  /** `_validate_artifact_id`: a safe path segment. */
  predicate ValidId(id: string) {
    && !Blank(id) && |id| >= 2
    && !Contains(id, '/') && !Contains(id, '\\') && !Contains(id, ':')
    && forall i :: 0 <= i < |id| - 1 ==> !(id[i] == '.' && id[i + 1] == '.')
  }

  function ReferenceFor(namespace: string, p: Publication): Reference {
    Reference(ReferenceId(p.artifactId, p.digest, namespace), p.artifactId, namespace, true, p.digest, p.contentType)
  }

  // ----- One publication, step by step

  /** The file operations of a first publication, in order; `done` of them go through before the process dies. */
  function Publish(files: Files, reference: Reference, payload: Bytes, done: nat): Files {
    var id := reference.artifactId;
    var written := if done >= 1 then files.(payloadTmps := files.payloadTmps[id := payload]) else files;
    var described := if done >= 2 then written.(metadataTmps := written.metadataTmps[id := reference]) else written;
    var replaced := if done >= 3 then
        described.(payloads := described.payloads[id := payload], payloadTmps := described.payloadTmps - {id})
      else described;
    if done >= 4 then
      replaced.(metadata := replaced.metadata[id := reference], metadataTmps := replaced.metadataTmps - {id})
    else replaced
  }

  predicate Published(files: Files, id: string) { id in files.payloads || id in files.metadata }

  /** `_resolve_duplicate`. */
  function Resolve(files: Files, expected: Reference): Result<Reference, StoreError> {
    var id := expected.artifactId;
    if id !in files.payloads || id !in files.metadata then Err(Corrupt)
    else
      var stored := files.metadata[id];
      if stored.artifactId == id && stored.digest != expected.digest then Err(AlreadyExists)
      else if stored != expected then Err(Corrupt)
      else if ContentDigest(files.payloads[id]) != expected.digest then Err(Corrupt)
      else Ok(stored)
  }

  /** What `store` answers and leaves behind. */
  function Stored(files: Files, namespace: string, p: Publication, payload: Bytes, done: nat): (Result<Reference, StoreError>, Files) {
    if !ValidId(p.artifactId) then (Err(InvalidReference), files)
    else if ContentDigest(payload) != p.digest then (Err(DigestMismatch), files)
    else if Published(files, p.artifactId) then (Resolve(files, ReferenceFor(namespace, p)), files)
    else
      (if done >= 4 then Ok(ReferenceFor(namespace, p)) else Err(Crashed),
       Publish(files, ReferenceFor(namespace, p), payload, done))
  }

  // ----- Every run of publications and crashes

  datatype Call = Call(publication: Publication, payload: Bytes, done: nat)

  function After(files: Files, namespace: string, call: Call): Files {
    Stored(files, namespace, call.publication, call.payload, call.done).1
  }

  function AfterAll(files: Files, namespace: string, calls: seq<Call>): Files {
    if calls == [] then files else After(AfterAll(files, namespace, calls[..|calls| - 1]), namespace, calls[|calls| - 1])
  }

  /** Metadata is only ever there beside the payload it describes. */
  ghost predicate Sound(files: Files, namespace: string) {
    forall id :: id in files.metadata ==>
      && id in files.payloads
      && files.metadata[id] == ReferenceFor(namespace, Publication(id, ContentDigest(files.payloads[id]), files.metadata[id].contentType))
  }

  /** Published files of `before` are in `after`, unchanged. */
  ghost predicate Keeps(before: Files, after: Files) {
    && (forall id :: id in before.payloads ==> id in after.payloads && after.payloads[id] == before.payloads[id])
    && (forall id :: id in before.metadata ==> id in after.metadata && after.metadata[id] == before.metadata[id])
  }

  lemma {:induction false} CallKeeps(files: Files, namespace: string, call: Call)
    requires Sound(files, namespace)
    ensures Sound(After(files, namespace, call), namespace) && Keeps(files, After(files, namespace, call))
  {
    hide Publish, Resolve, ValidId, Sound, Keeps;
    KeepsItself(files);
    var id := call.publication.artifactId;
    if !Published(files, id) && ContentDigest(call.payload) == call.publication.digest {
      PublishKeeps(files, namespace, call.publication, call.payload, call.done);
    }
  }

  lemma {:induction false} KeepsItself(files: Files)
    ensures Keeps(files, files)
  {
  }

  lemma {:induction false} PublishKeeps(files: Files, namespace: string, p: Publication, payload: Bytes, done: nat)
    requires Sound(files, namespace) && !Published(files, p.artifactId) && ContentDigest(payload) == p.digest
    ensures var after := Publish(files, ReferenceFor(namespace, p), payload, done); Sound(after, namespace) && Keeps(files, after)
  {
  }

  /**
   * Over every run, whatever crashes between file operations: metadata present
   * means the matching payload is present, and published bytes never change.
   */
  lemma {:induction false} EveryRunIsSound(files: Files, namespace: string, calls: seq<Call>)
    requires Sound(files, namespace)
    ensures Sound(AfterAll(files, namespace, calls), namespace) && Keeps(files, AfterAll(files, namespace, calls))
  {
    hide Sound, After;
    if calls != [] {
      EveryRunIsSound(files, namespace, calls[..|calls| - 1]);
      CallKeeps(AfterAll(files, namespace, calls[..|calls| - 1]), namespace, calls[|calls| - 1]);
    }
  }

  /** `_validate_reference`. */
  predicate Belongs(namespace: string, reference: Reference) {
    && ValidId(reference.artifactId)
    && reference.referenceId == ReferenceId(reference.artifactId, reference.digest, reference.namespace)
    && reference.namespace == namespace && reference.local
  }

  /** What `retrieve` answers for a reference that belongs to this store. */
  function Retrieved(files: Files, reference: Reference): Result<Bytes, StoreError> {
    var id := reference.artifactId;
    if id !in files.payloads && id !in files.metadata then Err(NotFound)
    else if id !in files.payloads || id !in files.metadata then Err(Corrupt)
    else if files.metadata[id] != reference then Err(Corrupt)
    else if ContentDigest(files.payloads[id]) != reference.digest then Err(Corrupt)
    else Ok(files.payloads[id])
  }

  /** One plain path segment that is not all blank: no separator or drive letter, and no way up. */
  ghost predicate Segment(id: string) {
    && |id| >= 2 && (exists c :: c in id && !IsBlank(c))
    && '/' !in id && '\\' !in id && ':' !in id
    && !exists a, b :: id == a + ".." + b
  }

  lemma {:induction false} ValidIdIff(id: string)
    ensures ValidId(id) <==> Segment(id)
  {
    if i :| 0 <= i < |id| - 1 && id[i] == '.' && id[i + 1] == '.' {
      assert id == id[..i] + ".." + id[i + 2..];
    }
    if a, b :| id == a + ".." + b {
      assert id[|a|] == '.' && id[|a| + 1] == '.';
    }
    if !Blank(id) {
      var i :| 0 <= i < |id| && !IsBlank(id[i]);
      assert id[i] in id;
    }
    assert forall c :: Contains(id, c) <==> c in id;
  }

  predicate JustThis(files: Files, p: Publication, payload: Bytes) {
    && p.artifactId in files.payloads && files.payloads[p.artifactId] == payload
    && p.artifactId in files.metadata && files.metadata[p.artifactId].contentType == p.contentType
  }

  /**
   * A publication is accepted exactly when its id is a plain path segment, its digest is the
   * payload's, and either nothing is published under the id and the process lives, or just this is.
   */
  lemma {:induction false} AcceptedIff(files: Files, namespace: string, p: Publication, payload: Bytes, done: nat)
    requires Sound(files, namespace)
    ensures Stored(files, namespace, p, payload, done).0.Ok? <==>
      && Segment(p.artifactId) && p.digest == ContentDigest(payload)
      && ((p.artifactId !in files.payloads && done >= 4) || JustThis(files, p, payload))
    ensures !Segment(p.artifactId) ==> Stored(files, namespace, p, payload, done) == (Err(InvalidReference), files)
  {
    hide Segment, ValidId;
    ValidIdIff(p.artifactId);
  }

  /** Once stored, the store's reference for a publication is its own, and retrieves the stored bytes after any further run. */
  lemma {:induction false} StoredIsRetrievable(files: Files, namespace: string, call: Call, calls: seq<Call>)
    requires Sound(files, namespace)
    requires Stored(files, namespace, call.publication, call.payload, call.done).0.Ok?
    ensures var reference := Stored(files, namespace, call.publication, call.payload, call.done).0.value;
      && Belongs(namespace, reference)
      && reference.artifactId == call.publication.artifactId && reference.contentType == call.publication.contentType
      && Retrieved(AfterAll(After(files, namespace, call), namespace, calls), reference) == Ok(call.payload)
  {
    hide AfterAll;
    CallKeeps(files, namespace, call);
    EveryRunIsSound(After(files, namespace, call), namespace, calls);
  }

  /** Storing the same publication again, at any later time, answers with the same reference and changes nothing. */
  lemma {:induction false} StoringAgainIsIdempotent(files: Files, namespace: string, call: Call, calls: seq<Call>, done: nat)
    requires Sound(files, namespace)
    requires Stored(files, namespace, call.publication, call.payload, call.done).0.Ok?
    ensures var later := AfterAll(After(files, namespace, call), namespace, calls);
      Stored(later, namespace, call.publication, call.payload, done) ==
        (Stored(files, namespace, call.publication, call.payload, call.done).0, later)
  {
    hide AfterAll;
    CallKeeps(files, namespace, call);
    EveryRunIsSound(After(files, namespace, call), namespace, calls);
  }

  /** The payload is there and the metadata is not. */
  predicate Torn(files: Files, id: string) { id in files.payloads && id !in files.metadata }

  /** A first publication is torn exactly when the process dies between the two replacements. */
  lemma {:induction false} TornIff(files: Files, namespace: string, call: Call)
    requires ValidId(call.publication.artifactId) && ContentDigest(call.payload) == call.publication.digest
    requires !Published(files, call.publication.artifactId)
    ensures Torn(After(files, namespace, call), call.publication.artifactId) <==> call.done == 3
  {
  }

  /**
   * A torn artifact stays torn: no later call repairs it, not even one with the same
   * bytes, and every attempt to store or to retrieve it reports corruption.
   */
  lemma {:induction false} TornIsForever(files: Files, namespace: string, calls: seq<Call>, id: string)
    requires Torn(files, id)
    ensures Torn(AfterAll(files, namespace, calls), id)
    ensures forall p: Publication, payload, done ::
      p.artifactId == id && ValidId(id) && ContentDigest(payload) == p.digest ==>
        Stored(AfterAll(files, namespace, calls), namespace, p, payload, done).0 == Err(Corrupt)
    ensures forall reference: Reference :: reference.artifactId == id ==>
      Retrieved(AfterAll(files, namespace, calls), reference) == Err(Corrupt)
  {
    if calls != [] {
      TornIsForever(files, namespace, calls[..|calls| - 1], id);
      TornStep(AfterAll(files, namespace, calls[..|calls| - 1]), namespace, calls[|calls| - 1], id);
    }
  }

  lemma {:induction false} TornStep(files: Files, namespace: string, call: Call, id: string)
    requires Torn(files, id)
    ensures Torn(After(files, namespace, call), id)
  {
  }

  // ----- The store

  class LocalFilesystemArtifactStore {
    const namespace: string
    var files: Files

    constructor (namespace: string)
      ensures this.namespace == namespace && files == Empty && Valid()
    {
      this.namespace, files := namespace, Empty;
    }

    ghost predicate Valid() reads this { Sound(files, namespace) }

    /** `store`, killed after `done` of its file operations. */
    method StoreArtifact(p: Publication, payload: Bytes, done: nat) returns (r: Result<Reference, StoreError>)
      requires Valid()
      modifies this
      ensures Valid() && Keeps(old(files), files)
      ensures (r, files) == Stored(old(files), namespace, p, payload, done)
    {
      hide Publish;
      CallKeeps(files, namespace, Call(p, payload, done));
      if !ValidId(p.artifactId) {
        return Err(InvalidReference);
      }
      if ContentDigest(payload) != p.digest {
        return Err(DigestMismatch);
      }
      var reference := ReferenceFor(namespace, p);
      if p.artifactId in files.payloads || p.artifactId in files.metadata {
        r := ResolveDuplicate(reference);
        return;
      }
      WriteAndReplace(reference, payload, done);
      return if done < 4 then Err(Crashed) else Ok(reference);
    }

    /** Write both temporary files, then replace payload and metadata. */
    method WriteAndReplace(reference: Reference, payload: Bytes, done: nat)
      modifies this
      ensures files == Publish(old(files), reference, payload, done)
    {
      var id := reference.artifactId;
      if done < 1 {
        return;
      }
      files := files.(payloadTmps := files.payloadTmps[id := payload]);
      if done < 2 {
        return;
      }
      files := files.(metadataTmps := files.metadataTmps[id := reference]);
      if done < 3 {
        return;
      }
      files := files.(payloads := files.payloads[id := files.payloadTmps[id]], payloadTmps := files.payloadTmps - {id});
      if done < 4 {
        return;
      }
      files := files.(metadata := files.metadata[id := files.metadataTmps[id]], metadataTmps := files.metadataTmps - {id});
    }

    /**
     * `_resolve_duplicate`: the published artifact when it is the expected one, a
     * conflict when it is this id's with other bytes, and corruption for all else.
     */
    method ResolveDuplicate(expected: Reference) returns (r: Result<Reference, StoreError>)
      ensures r == Ok(expected) <==> var id := expected.artifactId;
        && id in files.payloads && ContentDigest(files.payloads[id]) == expected.digest
        && id in files.metadata && files.metadata[id] == expected
      ensures r == Err(AlreadyExists) <==> var id := expected.artifactId;
        && id in files.payloads && id in files.metadata
        && files.metadata[id].artifactId == id && files.metadata[id].digest != expected.digest
      ensures r == Ok(expected) || r == Err(AlreadyExists) || r == Err(Corrupt)
    {
      var id := expected.artifactId;
      if id !in files.payloads || id !in files.metadata {
        return Err(Corrupt);
      }
      var stored := files.metadata[id];
      if stored.artifactId == id && stored.digest != expected.digest {
        return Err(AlreadyExists);
      }
      if stored != expected {
        return Err(Corrupt);
      }
      if ContentDigest(files.payloads[id]) != expected.digest {
        return Err(Corrupt);
      }
      return Ok(stored);
    }

    /** `retrieve`: the bytes whose digest the reference carries, or an error. */
    method Retrieve(reference: Reference) returns (r: Result<Bytes, StoreError>)
      requires Valid()
      ensures r.Ok? ==> ContentDigest(r.value) == reference.digest
      ensures r.Ok? <==>
        && Belongs(namespace, reference) && reference.artifactId in files.metadata && files.metadata[reference.artifactId] == reference
      ensures Belongs(namespace, reference) ==> r == Retrieved(files, reference)
      ensures !Belongs(namespace, reference) ==> r == Err(InvalidReference)
    {
      if !Belongs(namespace, reference) {
        return Err(InvalidReference);
      }
      var id := reference.artifactId;
      if id !in files.payloads && id !in files.metadata {
        return Err(NotFound);
      }
      if id !in files.payloads || id !in files.metadata {
        return Err(Corrupt);
      }
      if files.metadata[id] != reference {
        return Err(Corrupt);
      }
      var payload := files.payloads[id];
      if ContentDigest(payload) != reference.digest {
        return Err(Corrupt);
      }
      return Ok(payload);
    }
  }
}
