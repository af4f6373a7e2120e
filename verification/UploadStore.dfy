/** The server's upload area (FileTransferService in file_transfer_service.cpp): one .part file and
    one resume record per token, and the finished files.  The size of the .part file is the only
    checkpoint.  Disk operations succeed; every method runs under `upload_mutex_`. */
module UploadStore {
  import opened Text

  /** The parts of FileTransferMetadata that identify an upload, and the time it was made. */
  datatype Meta = Meta(scope: Bytes, sender: Bytes, target: Bytes, name: Bytes, size: nat, digest: Bytes,
                       createdAt: int)

  /** `same_metadata_identity` */
  predicate SameIdentity(a: Meta, b: Meta) { a.(createdAt := b.createdAt) == b }

  datatype Storage = Storage(
    parts: map<Bytes, Bytes>,                  // tmp/<token>.part
    metas: map<Bytes, Meta>,                   // tmp/<token>.resume.pb
    stored: map<(Bytes, Bytes), Bytes>)        // files/<token>_<name>

  /** Where an upload continues. */
  datatype Resumed = Resumed(meta: Meta, offset: nat)

  datatype Begun = Begun(s: Storage, resumed: Option<Resumed>)

  function BeginUpload(s: Storage, token: Bytes, meta: Meta): Begun {
    if token in s.parts && token in s.metas then
      if !SameIdentity(meta, s.metas[token]) || |s.parts[token]| > meta.size then Begun(s, None)
      else Begun(s, Some(Resumed(s.metas[token], |s.parts[token]|)))
    else
      Begun(s.(parts := s.parts[token := []], metas := s.metas[token := meta]), Some(Resumed(meta, 0)))
  }

  /** Both halves of a checkpoint are there. */
  predicate Interrupted(s: Storage, token: Bytes) { token in s.parts && token in s.metas }

  /** How much of the upload is here. */
  function BytesHere(s: Storage, token: Bytes): nat { if Interrupted(s, token) then |s.parts[token]| else 0 }

  /** The same file, by the same sender to the same target; it may have been announced at another time. */
  predicate SameFile(a: Meta, b: Meta) {
    && a.scope == b.scope && a.sender == b.sender && a.target == b.target
    && a.name == b.name && a.size == b.size && a.digest == b.digest
  }

  /** An interrupted upload continues exactly when it is the same upload and fits, at the byte where it
      was interrupted, and nothing changes; an upload without a checkpoint starts with nothing. */
  lemma UploadResumes(s: Storage, token: Bytes, meta: Meta)
    ensures var begun := BeginUpload(s, token, meta);
            && (begun.resumed.Some? <==>
                  (Interrupted(s, token) ==> SameFile(meta, s.metas[token]) && |s.parts[token]| <= meta.size))
            && (begun.resumed.Some? ==>
                  && begun.resumed.value.offset == BytesHere(s, token)
                  && SameFile(meta, begun.resumed.value.meta) && Interrupted(begun.s, token)
                  && begun.s.metas[token] == begun.resumed.value.meta)
            && (Interrupted(s, token) ==> begun.s == s)
            && (!Interrupted(s, token) ==>
                  begun.s.parts == s.parts[token := []] && begun.s.metas == s.metas[token := meta])
            && begun.s.stored == s.stored
  {
  }

  predicate AppendOk(s: Storage, token: Bytes, offset: nat) { token in s.parts && |s.parts[token]| == offset }

  function AppendBytes(s: Storage, token: Bytes, bytes: Bytes): Storage
    requires token in s.parts
  {
    s.(parts := s.parts[token := s.parts[token] + bytes])
  }

  function ToLower(c: char): char { if 'A' <= c <= 'Z' then (c as int + 32) as char else c }

  function ToLowerAll(s: Bytes): Bytes { seq(|s|, i requires 0 <= i < |s| => ToLower(s[i])) }

  predicate FinalizeOk(s: Storage, sha: Digest, token: Bytes, size: nat, digest: Bytes) {
    token in s.parts && |s.parts[token]| == size && sha(s.parts[token]) == ToLowerAll(digest)
  }

  function Finalize(s: Storage, token: Bytes, name: Bytes): Storage
    requires token in s.parts
  {
    Storage(s.parts - {token}, s.metas - {token}, s.stored[(token, name) := s.parts[token]])
  }

  function Cancel(s: Storage, token: Bytes): Storage { s.(parts := s.parts - {token}, metas := s.metas - {token}) }

  class FileTransferService {
    const sha: Digest
    var parts: map<Bytes, Bytes>
    var metas: map<Bytes, Meta>
    var stored: map<(Bytes, Bytes), Bytes>

    function Abs(): Storage
      reads this
    {
      Storage(parts, metas, stored)
    }

    constructor (sha: Digest)
      ensures this.sha == sha && Abs() == Storage(map[], map[], map[])
    {
      this.sha, parts, metas, stored := sha, map[], map[], map[];
    }

    /** `begin_or_resume_upload`: an offset is returned only for the same upload, it is the number
        of bytes already here, and no byte that is here gets lost. */
    method BeginOrResumeUpload(token: Bytes, meta: Meta) returns (resumed: Option<Resumed>)
      modifies this`parts, this`metas
      ensures Begun(Abs(), resumed) == BeginUpload(old(Abs()), token, meta)
      ensures resumed.Some? ==>
                token in parts && token in metas && resumed.value.offset == |parts[token]| <= meta.size
                && SameIdentity(meta, metas[token]) && resumed.value.meta == metas[token]
      ensures old(Interrupted(Abs(), token)) ==>
                && Abs() == old(Abs())
                && (resumed.Some? <==> SameIdentity(meta, metas[token]) && |parts[token]| <= meta.size)
      ensures old(!Interrupted(Abs(), token)) ==>
                && resumed == Some(Resumed(meta, 0))
                && parts == old(parts)[token := []] && metas == old(metas)[token := meta]
    {
      var partExists, metaExists := token in parts, token in metas;
      if partExists && metaExists {
        if !SameIdentity(meta, metas[token]) {
          return None;
        }
        var size := |parts[token]|;
        if size > meta.size {
          return None;
        }
        return Some(Resumed(metas[token], size));
      }
      if partExists || metaExists {
        parts, metas := parts - {token}, metas - {token};
      }
      parts := parts[token := []];
      metas := metas[token := meta];
      assert Abs() == BeginUpload(old(Abs()), token, meta).s;
      return Some(Resumed(meta, 0));
    }

    /** `append_upload_bytes`: bytes are added only at the expected end of the file. */
    method AppendUploadBytes(token: Bytes, expectedOffset: nat, bytes: Bytes) returns (accepted: Option<nat>)
      modifies this`parts
      ensures accepted.Some? <==> AppendOk(old(Abs()), token, expectedOffset)
      ensures accepted.Some? ==> Abs() == AppendBytes(old(Abs()), token, bytes) && accepted.value == |parts[token]|
      ensures accepted.None? ==> Abs() == old(Abs())
    {
      if token !in parts || |parts[token]| != expectedOffset {
        return None;
      }
      parts := parts[token := parts[token] + bytes];
      return Some(expectedOffset + |bytes|);
    }

    /** `finalize_upload`: the .part file moves to its final place when size and digest are right. */
    method FinalizeUpload(token: Bytes, name: Bytes, size: nat, digest: Bytes) returns (ok: bool)
      modifies this
      ensures ok <==> FinalizeOk(old(Abs()), sha, token, size, digest)
      ensures ok ==> Abs() == Finalize(old(Abs()), token, name) && |stored[(token, name)]| == size
      ensures !ok ==> Abs() == old(Abs())
    {
      if token !in parts || |parts[token]| != size || sha(parts[token]) != ToLowerAll(digest) {
        return false;
      }
      stored := stored[(token, name) := parts[token]];
      parts, metas := parts - {token}, metas - {token};
      return true;
    }

    /** `cancel_upload` */
    method CancelUpload(token: Bytes)
      modifies this`parts, this`metas
      ensures Abs() == Cancel(old(Abs()), token)
    {
      parts, metas := parts - {token}, metas - {token};
    }
  }
}
