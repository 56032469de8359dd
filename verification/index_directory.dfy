/**
 * The document-level loops of the index updater (DefaultIndexUpdater):
 * filtering a freshly unpacked index, copying a legacy index into the
 * destination while updating each document, and unpacking the flat entries
 * of a legacy zip archive.
 *
 * A Lucene index is a sequence of slots, one per document number (maxDoc is
 * the length); a slot holds a stored document and a deleted mark. Optimizing
 * an index drops its deleted slots, so what survives it is `LiveDocs`.
 */
module IndexDirectory {

  /** A stored document: field name to value. Its content is opaque here. */
  type Document = map<string, string>

  type Byte = bv8

  /** One document number of an index. */
  datatype Slot = Slot(doc: Document, deleted: bool)

  /** A zip entry as ZipInputStream yields it. */
  datatype ZipEntry = ZipEntry(name: string, isDirectory: bool, data: seq<Byte>)

  /** The size of the buffer unpackDirectory copies entry contents through. */
  const BufferSize: nat := 4096

  /** The documents a reader enumerates: those of the non-deleted slots, in index order. */
  function LiveDocs(s: seq<Slot>): (r: seq<Document>)
    ensures |r| <= |s|
  {
    if s == [] then []
    else LiveDocs(s[..|s| - 1]) + (if s[|s| - 1].deleted then [] else [s[|s| - 1].doc])
  }

  /** IndexReader.numDocs: how many slots are not deleted (maxDoc is |s|). */
  function NumDocs(s: seq<Slot>): nat
  {
    |LiveDocs(s)|
  }

  /** The documents of `docs` that `accept` keeps, in their order. */
  function Select(docs: seq<Document>, accept: Document -> bool): seq<Document>
  {
    if docs == [] then []
    else Select(docs[..|docs| - 1], accept) + (if accept(docs[|docs| - 1]) then [docs[|docs| - 1]] else [])
  }

  /** A freshly written index: every document in its own non-deleted slot. */
  function Fresh(docs: seq<Document>): seq<Slot>
  {
    seq(|docs|, i requires 0 <= i < |docs| => Slot(docs[i], false))
  }

  /** IndexUtils.updateDocument applied to every document, in order. */
  function Updated(docs: seq<Document>, update: Document -> Document): seq<Document>
  {
    seq(|docs|, i requires 0 <= i < |docs| => update(docs[i]))
  }

  /** A document is live exactly when some non-deleted slot holds it. */
  lemma {:induction false} LiveDocsMembers(s: seq<Slot>, d: Document)
    ensures d in LiveDocs(s) <==> exists i | 0 <= i < |s| :: !s[i].deleted && s[i].doc == d
  {
    if s != [] {
      var init := s[..|s| - 1];
      LiveDocsMembers(init, d);
      if d in LiveDocs(init) {
        var i :| 0 <= i < |init| && !init[i].deleted && init[i].doc == d;
        assert s[i] == init[i];
      }
      if exists i | 0 <= i < |s| :: !s[i].deleted && s[i].doc == d {
        var i :| 0 <= i < |s| && !s[i].deleted && s[i].doc == d;
        if i < |s| - 1 {
          assert init[i] == s[i];
        }
      }
    }
  }

  lemma {:induction false} SelectAccepts(docs: seq<Document>, accept: Document -> bool)
    ensures forall d | d in Select(docs, accept) :: accept(d)
  {
    if docs != [] {
      SelectAccepts(docs[..|docs| - 1], accept);
    }
  }

  /** A freshly written index enumerates exactly the documents written into it. */
  lemma {:induction false} FreshLiveDocs(docs: seq<Document>)
    ensures LiveDocs(Fresh(docs)) == docs
  {
    if docs != [] {
      var n := |docs| - 1;
      assert Fresh(docs)[..n] == Fresh(docs[..n]);
      FreshLiveDocs(docs[..n]);
      assert docs[..n] + [docs[n]] == docs;
    }
  }

  /** In an index without deletions numDocs equals maxDoc. */
  lemma {:induction false} NumDocsWithoutDeletions(s: seq<Slot>)
    requires forall i | 0 <= i < |s| :: !s[i].deleted
    ensures NumDocs(s) == |s|
  {
    if s != [] {
      NumDocsWithoutDeletions(s[..|s| - 1]);
    }
  }

  // ---------------------------------------------------------------------------
  // filterDirectory

  /** One examined slot: a live document the filter rejects gets deleted. */
  function Screened(s: Slot, accept: Document -> bool): Slot
  {
    if !s.deleted && !accept(s.doc) then s.(deleted := true) else s
  }

  /** The index after examining every slot 0 .. maxDoc-1. */
  function Filtered(s: seq<Slot>, accept: Document -> bool): seq<Slot>
  {
    seq(|s|, i requires 0 <= i < |s| => Screened(s[i], accept))
  }

  /** The index after examining slots 0 .. numDocs-1 only, as filterDirectory is written. */
  function FilteredAsWritten(s: seq<Slot>, accept: Document -> bool): seq<Slot>
  {
    var numDocs := NumDocs(s);
    seq(|s|, i requires 0 <= i < |s| => if i < numDocs then Screened(s[i], accept) else s[i])
  }

  /**
   * Filtering keeps exactly the live documents the filter accepts, in order:
   * no rejected document stays live and no accepted one is lost.
   */
  lemma {:induction false} FilteredLiveDocs(s: seq<Slot>, accept: Document -> bool)
    ensures LiveDocs(Filtered(s, accept)) == Select(LiveDocs(s), accept)
  {
    if s != [] {
      var n := |s| - 1;
      var f := Filtered(s, accept);
      assert f[..n] == Filtered(s[..n], accept);
      FilteredLiveDocs(s[..n], accept);
      var live := LiveDocs(s[..n]);
      if !s[n].deleted {
        assert (live + [s[n].doc])[..|live|] == live;
      } else {
        assert live + [] == live;
      }
    }
  }

  /** No document the filter rejects is enumerable after filtering. */
  lemma FilterRemovesRejected(s: seq<Slot>, accept: Document -> bool)
    ensures forall d | d in LiveDocs(Filtered(s, accept)) :: accept(d)
  {
    FilteredLiveDocs(s, accept);
    SelectAccepts(LiveDocs(s), accept);
  }

  /**
   * The loop as written stops at numDocs: a rejected document placed after a
   * deleted slot is never examined and stays live.
   */
  lemma FilterAsWrittenKeepsRejected()
    ensures var doc: Document := map["id" := "rejected"];
            var s := [Slot(map[], true), Slot(doc, false)];
            var rejectAll := (d: Document) => false;
            && LiveDocs(FilteredAsWritten(s, rejectAll)) == [doc]
            && LiveDocs(Filtered(s, rejectAll)) == []
  {
    var doc: Document := map["id" := "rejected"];
    var s := [Slot(map[], true), Slot(doc, false)];
    var rejectAll := (d: Document) => false;
    assert s[..1] == [Slot(map[], true)];
    assert [Slot(map[], true)][..0] == [];
    assert LiveDocs(s[..1]) == [];
    assert NumDocs(s) == 1;
    var w := FilteredAsWritten(s, rejectAll);
    assert w == s;
    var f := Filtered(s, rejectAll);
    assert f == [Slot(map[], true), Slot(doc, true)];
    assert f[..1] == s[..1];
  }

  /** Without deletions, as when an index has just been written, both loops agree. */
  lemma FilterAsWrittenAgreesWithoutDeletions(s: seq<Slot>, accept: Document -> bool)
    requires forall i | 0 <= i < |s| :: !s[i].deleted
    ensures FilteredAsWritten(s, accept) == Filtered(s, accept)
  {
    NumDocsWithoutDeletions(s);
  }

  /**
   * filterDirectory with its loop over every document number: deletes exactly the
   * live documents the filter rejects. (The optimize that follows drops the deleted
   * slots; LiveDocs is what it keeps.)
   */
  method FilterDirectory(dir: array<Slot>, accept: Document -> bool)
    modifies dir
    ensures dir[..] == Filtered(old(dir[..]), accept)
  {
    var i := 0;
    while i < dir.Length
      invariant 0 <= i <= dir.Length
      invariant forall k | 0 <= k < i :: dir[k] == Screened(old(dir[k]), accept)
      invariant forall k | i <= k < dir.Length :: dir[k] == old(dir[k])
    {
      if !dir[i].deleted {
        var d := dir[i].doc;
        if !accept(d) {
          dir[i] := Slot(d, true);
        }
      }
      i := i + 1;
    }
  }

  /** filterDirectory as written: the loop runs over 0 .. numDocs-1. */
  method FilterDirectoryAsWritten(dir: array<Slot>, accept: Document -> bool)
    modifies dir
    ensures dir[..] == FilteredAsWritten(old(dir[..]), accept)
  {
    var numDocs := NumDocs(dir[..]);
    var i := 0;
    while i < numDocs
      invariant 0 <= i <= numDocs <= dir.Length
      invariant forall k | 0 <= k < i :: dir[k] == Screened(old(dir[k]), accept)
      invariant forall k | i <= k < dir.Length :: dir[k] == old(dir[k])
    {
      if !dir[i].deleted {
        var d := dir[i].doc;
        if !accept(d) {
          dir[i] := Slot(d, true);
        }
      }
      i := i + 1;
    }
  }

  // ---------------------------------------------------------------------------
  // copyUpdatedDocuments

  /**
   * copyUpdatedDocuments: the documents written into the destination (opened with
   * create=true, so it starts empty) are the updated versions of the source's
   * non-deleted documents, in index order, and nothing else.
   */
  method CopyUpdatedDocuments(source: seq<Slot>, update: Document -> Document) returns (written: seq<Document>)
    ensures written == Updated(LiveDocs(source), update)
  {
    written := [];
    var i := 0;
    while i < |source|
      invariant 0 <= i <= |source|
      invariant written == Updated(LiveDocs(source[..i]), update)
    {
      assert source[..i + 1][..i] == source[..i];
      if !source[i].deleted {
        written := written + [update(source[i].doc)];
      }
      i := i + 1;
    }
    assert source[..|source|] == source;
  }

  // ---------------------------------------------------------------------------
  // unpackDirectory

  /** Entries unpackDirectory does not write: directories and names with a '/'. */
  predicate Skipped(e: ZipEntry)
  {
    e.isDirectory || '/' in e.name
  }

  /** The files of the fresh directory after unpacking `entries` in order. */
  function Extracted(entries: seq<ZipEntry>): map<string, seq<Byte>>
  {
    if entries == [] then map[]
    else
      var files := Extracted(entries[..|entries| - 1]);
      var e := entries[|entries| - 1];
      if Skipped(e) then files else files[e.name := e.data]
  }

  /**
   * A file exists iff some written entry has its name, and its content is the whole
   * data of the last such entry (a later entry of the same name overwrites).
   */
  lemma {:induction false} ExtractedFiles(entries: seq<ZipEntry>, name: string)
    ensures name in Extracted(entries) <==>
              exists i | 0 <= i < |entries| :: !Skipped(entries[i]) && entries[i].name == name
    ensures name in Extracted(entries) ==>
              exists i | 0 <= i < |entries| ::
                && !Skipped(entries[i]) && entries[i].name == name
                && Extracted(entries)[name] == entries[i].data
                && forall j | i < j < |entries| :: Skipped(entries[j]) || entries[j].name != name
  {
    if entries != [] {
      var n := |entries| - 1;
      var prefix := entries[..n];
      ExtractedFiles(prefix, name);
      var e := entries[n];
      if !Skipped(e) && e.name == name {
        assert !Skipped(entries[n]) && entries[n].name == name && Extracted(entries)[name] == entries[n].data;
      } else {
        if name in Extracted(prefix) {
          var i :| 0 <= i < n && !Skipped(prefix[i]) && prefix[i].name == name
                   && Extracted(prefix)[name] == prefix[i].data
                   && forall j | i < j < n :: Skipped(prefix[j]) || prefix[j].name != name;
          assert entries[i] == prefix[i];
          assert forall j | i < j < |entries| :: Skipped(entries[j]) || entries[j].name != name by {
            forall j | i < j < |entries| ensures Skipped(entries[j]) || entries[j].name != name {
              if j < n {
                assert entries[j] == prefix[j];
              }
            }
          }
        }
        if exists i | 0 <= i < |entries| :: !Skipped(entries[i]) && entries[i].name == name {
          var i :| 0 <= i < |entries| && !Skipped(entries[i]) && entries[i].name == name;
          assert i < n && prefix[i] == entries[i];
        }
      }
    }
  }

  /**
   * unpackDirectory: every entry that is not a directory and has no '/' in its name
   * is written, under its name, with its whole content copied through the buffer.
   */
  method UnpackDirectory(entries: seq<ZipEntry>) returns (files: map<string, seq<Byte>>)
    ensures files == Extracted(entries)
  {
    files := map[];
    var i := 0;
    while i < |entries|
      invariant 0 <= i <= |entries|
      invariant files == Extracted(entries[..i])
    {
      var entry := entries[i];
      assert entries[..i + 1][..i] == entries[..i];
      if !(entry.isDirectory || '/' in entry.name) {
        var out: seq<Byte> := [];
        var pos := 0;
        while pos < |entry.data|
          invariant 0 <= pos <= |entry.data|
          invariant out == entry.data[..pos]
        {
          var n := if |entry.data| - pos < BufferSize then |entry.data| - pos else BufferSize;
          out := out + entry.data[pos..pos + n];
          pos := pos + n;
        }
        assert out == entry.data;
        files := files[entry.name := out];
      }
      i := i + 1;
    }
    assert entries[..|entries|] == entries;
  }
}
