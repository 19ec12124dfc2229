/**
 * The file picker of the request forms: each chosen file is checked for
 * size and type, the accepted ones are appended to the selection, and the
 * selection is capped at the maximum count; a file can be removed by its
 * position. Every change is reported to the enclosing form.
 */
module FileUpload {
  import opened Wrappers
  import opened Text

  /** A chosen file: its name, its size in bytes and its MIME type. */
  datatype File = File(name: string, size: nat, mimeType: string)

  const DefaultMaxFiles: nat := 3
  const DefaultMaxSizeMB: nat := 10
  const DefaultAcceptedTypes: seq<string> := ["image/*", "video/mp4", "application/pdf"]

  /** `file.size > maxSizeMB * 1024 * 1024` rejects; the limit itself is allowed. */
  predicate SizeAllowed(file: File, maxSizeMB: nat)
  {
    file.size <= maxSizeMB * 1024 * 1024
  }

  // A pattern ending in `/*` matches a type starting with the pattern less those two characters; any other pattern only itself.
  predicate PatternMatches(pattern: string, mimeType: string)
  {
    if EndsWith(pattern, "/*") then StartsWith(mimeType, pattern[..|pattern| - 2]) else mimeType == pattern
  }

  /** `acceptedTypes.some(...)`. */
  predicate TypeAccepted(file: File, acceptedTypes: seq<string>)
  {
    exists i :: 0 <= i < |acceptedTypes| && PatternMatches(acceptedTypes[i], file.mimeType)
  }

  /** Why a file is refused, the size checked first; `None` when it is kept. */
  function Rejection(file: File, maxSizeMB: nat, acceptedTypes: seq<string>): (r: Option<string>)
    ensures r.None? <==> SizeAllowed(file, maxSizeMB) && TypeAccepted(file, acceptedTypes)
  {
    if !SizeAllowed(file, maxSizeMB) then
      Some(file.name + " is too large (max " + Radix(maxSizeMB, 10) + "MB)")
    else if !TypeAccepted(file, acceptedTypes) then
      Some(file.name + " is not a supported file type")
    else None
  }

  /** The files of a batch that pass both checks, in order. */
  function Kept(batch: seq<File>, maxSizeMB: nat, acceptedTypes: seq<string>): (kept: seq<File>)
    ensures |kept| <= |batch|
    ensures forall f :: f in kept ==> f in batch && Rejection(f, maxSizeMB, acceptedTypes).None?
    ensures forall f :: f in batch && Rejection(f, maxSizeMB, acceptedTypes).None? ==> f in kept
  {
    if |batch| == 0 then []
    else
      var last := batch[|batch| - 1];
      assert batch == batch[..|batch| - 1] + [last];
      Kept(batch[..|batch| - 1], maxSizeMB, acceptedTypes)
        + (if Rejection(last, maxSizeMB, acceptedTypes).None? then [last] else [])
  }

  /** The messages for the refused files of a batch, in order. */
  function Complaints(batch: seq<File>, maxSizeMB: nat, acceptedTypes: seq<string>): seq<string>
  {
    if |batch| == 0 then []
    else
      var last := batch[|batch| - 1];
      Complaints(batch[..|batch| - 1], maxSizeMB, acceptedTypes)
        + (match Rejection(last, maxSizeMB, acceptedTypes) case Some(m) => [m] case None => [])
  }

  /** `s.slice(0, n)`. */
  function Take<T>(s: seq<T>, n: nat): (r: seq<T>)
    ensures |r| <= n && |r| <= |s| && r <= s
    ensures |s| <= n ==> r == s
  {
    if |s| <= n then s else s[..n]
  }

  /** `files.filter((_, i) => i !== index)`. */
  function Without<T>(s: seq<T>, index: int): (r: seq<T>)
    decreases |s|
  {
    if |s| == 0 then []
    else (if index == 0 then [] else [s[0]]) + Without(s[1..], index - 1)
  }

  // ---------------------------------------------------------------------------
  // Properties

  /** A file of exactly the maximum size is allowed, one byte more is not. */
  lemma SizeBoundary(file: File, maxSizeMB: nat)
    ensures SizeAllowed(file.(size := maxSizeMB * 1048576), maxSizeMB)
    ensures !SizeAllowed(file.(size := maxSizeMB * 1048576 + 1), maxSizeMB)
  {
  }

  // `<base>/*` accepts every type that starts with `base`, the slash not
  // included: `image/*` accepts `image/png`, and `imagery` too.
  lemma WildcardPrefix(base: string, mimeType: string)
    ensures PatternMatches(base + "/*", mimeType) <==> StartsWith(mimeType, base)
  {
    var p := base + "/*";
    assert p[|p| - 2..] == "/*";
    assert p[..|p| - 2] == base;
  }

  lemma ImagePatternAcceptsImagery()
    ensures PatternMatches("image/*", "imagery")
    ensures PatternMatches("image/*", "image/png")
    ensures !PatternMatches("video/mp4", "video/webm")
  {
    WildcardPrefix("image", "imagery");
    WildcardPrefix("image", "image/png");
  }

  // A pattern without the wildcard `/*` ending matches only the identical type.
  lemma ExactPattern(pattern: string, mimeType: string)
    requires !EndsWith(pattern, "/*")
    ensures PatternMatches(pattern, mimeType) <==> mimeType == pattern
  {
  }

  /** Every file of a batch is either kept or complained about, never both, never neither. */
  lemma {:induction false} KeptOrComplained(batch: seq<File>, maxSizeMB: nat, acceptedTypes: seq<string>)
    ensures |Kept(batch, maxSizeMB, acceptedTypes)| + |Complaints(batch, maxSizeMB, acceptedTypes)| == |batch|
  {
    if |batch| > 0 {
      KeptOrComplained(batch[..|batch| - 1], maxSizeMB, acceptedTypes);
    }
  }

  /** Removing an index in range deletes that element alone and keeps the others in order. */
  lemma {:induction false} WithoutIndex<T>(s: seq<T>, index: int)
    requires 0 <= index < |s|
    ensures Without(s, index) == s[..index] + s[index + 1..]
    decreases |s|
  {
    if index == 0 {
      WithoutOutside(s[1..], -1);
      assert Without(s, index) == Without(s[1..], -1);
    } else {
      var t := s[1..];
      WithoutIndex(t, index - 1);
      assert Without(s, index) == [s[0]] + Without(t, index - 1);
      assert s[..index] == [s[0]] + t[..index - 1];
      assert s[index + 1..] == t[index..];
    }
  }

  /** Removing an index out of range changes nothing. */
  lemma {:induction false} WithoutOutside<T>(s: seq<T>, index: int)
    requires index < 0 || index >= |s|
    ensures Without(s, index) == s
    decreases |s|
  {
    if |s| > 0 {
      WithoutOutside(s[1..], index - 1);
      assert [s[0]] + s[1..] == s;
    }
  }

  // ---------------------------------------------------------------------------
  // The component

  class FileUploader {
    /** The `files` state. */
    var files: seq<File>
    /** Every list handed to `onFilesChange`, oldest first. */
    var reported: seq<seq<File>>
    const maxFiles: nat
    const maxSizeMB: nat
    const acceptedTypes: seq<string>

    /** The selection never exceeds the maximum count. */
    predicate Valid()
      reads this
    {
      |files| <= maxFiles
    }

    constructor(maxFiles: nat, maxSizeMB: nat, acceptedTypes: seq<string>)
      ensures Valid()
      ensures files == [] && reported == []
      ensures this.maxFiles == maxFiles && this.maxSizeMB == maxSizeMB && this.acceptedTypes == acceptedTypes
    {
      this.maxFiles := maxFiles;
      this.maxSizeMB := maxSizeMB;
      this.acceptedTypes := acceptedTypes;
      files := [];
      reported := [];
    }

    /**
     * `handleFiles(newFiles)`: no list at all changes nothing. Otherwise the
     * files passing both checks are appended, the result is cut to the
     * maximum count, reported, and the messages about the refused files are
     * returned.
     */
    method HandleFiles(newFiles: Option<seq<File>>) returns (errors: seq<string>)
      requires Valid()
      modifies this
      ensures Valid()
      ensures newFiles.None? ==> unchanged(this) && errors == []
      ensures newFiles.Some? ==>
        && files == Take(old(files) + Kept(newFiles.value, maxSizeMB, acceptedTypes), maxFiles)
        && errors == Complaints(newFiles.value, maxSizeMB, acceptedTypes)
        && reported == old(reported) + [files]
    {
      if newFiles.None? {
        return [];
      }
      var batch := newFiles.value;
      var validFiles: seq<File> := [];
      errors := [];
      for i := 0 to |batch|
        invariant validFiles == Kept(batch[..i], maxSizeMB, acceptedTypes)
        invariant errors == Complaints(batch[..i], maxSizeMB, acceptedTypes)
      {
        var file := batch[i];
        assert batch[..i + 1][..i] == batch[..i];
        if !SizeAllowed(file, maxSizeMB) {
          errors := errors + [file.name + " is too large (max " + Radix(maxSizeMB, 10) + "MB)"];
        } else if !TypeAccepted(file, acceptedTypes) {
          errors := errors + [file.name + " is not a supported file type"];
        } else {
          validFiles := validFiles + [file];
        }
      }
      assert batch[..|batch|] == batch;
      var updatedFiles := Take(files + validFiles, maxFiles);
      files := updatedFiles;
      reported := reported + [updatedFiles];
    }

    /** `removeFile(index)`: the selection without the file at that position, reported. */
    method RemoveFile(index: int)
      requires Valid()
      modifies this
      ensures Valid()
      ensures files == Without(old(files), index)
      ensures reported == old(reported) + [files]
    {
      WithoutLength(files, index);
      var updatedFiles := Without(files, index);
      files := updatedFiles;
      reported := reported + [updatedFiles];
    }
  }

  lemma {:induction false} WithoutLength<T>(s: seq<T>, index: int)
    ensures |Without(s, index)| <= |s|
    decreases |s|
  {
    if |s| > 0 {
      WithoutLength(s[1..], index - 1);
    }
  }

  /**
   * After a batch the previous selection is a prefix of the new one, every
   * new entry passed both checks, and the count stays within the maximum; at
   * the maximum a batch changes nothing, even when every file is accepted.
   */
  lemma SelectionGrows(before: seq<File>, batch: seq<File>, maxFiles: nat, maxSizeMB: nat, acceptedTypes: seq<string>)
    requires |before| <= maxFiles
    ensures var updated := Take(before + Kept(batch, maxSizeMB, acceptedTypes), maxFiles);
      && |updated| <= maxFiles
      && updated[..|before|] == before
      && (forall j :: |before| <= j < |updated| ==>
            SizeAllowed(updated[j], maxSizeMB) && TypeAccepted(updated[j], acceptedTypes))
      && (|before| == maxFiles ==> updated == before)
  {
    var kept := Kept(batch, maxSizeMB, acceptedTypes);
    var updated := Take(before + kept, maxFiles);
    assert updated <= before + kept;
    forall j | |before| <= j < |updated|
      ensures SizeAllowed(updated[j], maxSizeMB) && TypeAccepted(updated[j], acceptedTypes)
    {
      assert updated[j] == kept[j - |before|];
      assert kept[j - |before|] in kept;
    }
  }
}
