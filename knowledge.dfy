/** The knowledge-base store: a list of documents with loading and error flags. */
module Knowledge {
  import opened Wrappers
  import opened Text
  import opened JsonValues

  datatype Document = Document(
    id: string,
    name: string,
    description: string,
    docType: string,
    size: nat,
    uploadDate: string)

  /** The parts of a browser `File` the upload reads. */
  datatype FileInfo = FileInfo(name: string, size: nat)

  /** The fixed list `loadDocuments` installs. */
  const SampleDocuments: seq<Document> := [TravelGuide, Handbook, ProjectNotes]

  const TravelGuide := Document("doc1", "Travel Guide 2023.pdf",
    "Comprehensive travel guide with popular destinations", "pdf", 1458000, "2023-06-10T08:30:00.000Z")
  const Handbook := Document("doc2", "Company Handbook.docx",
    "Internal company policies and procedures", "docx", 2540000, "2023-06-15T14:20:00.000Z")
  const ProjectNotes := Document("doc3", "Project Notes.txt",
    "Meeting notes from project kickoff", "txt", 45000, "2023-07-01T09:15:00.000Z")

  /** Index of the last dot in `name`, or -1 when there is none. */
  function LastDot(name: string): (i: int)
    ensures -1 <= i < |name|
    ensures i >= 0 ==> name[i] == '.'
    ensures forall k :: i < k < |name| ==> name[k] != '.'
    decreases |name|
  {
    if |name| == 0 then -1
    else if name[|name| - 1] == '.' then |name| - 1
    else LastDot(name[..|name| - 1])
  }

  /** `name.split('.').pop()`: the text after the last dot, which is the whole
      name when it has no dot. */
  function AfterLastDot(name: string): string {
    name[LastDot(name) + 1..]
  }

  /** The `type` an upload records (`toLowerCase` on ASCII letters). */
  function FileType(name: string): string {
    ToLowerAscii(AfterLastDot(name))
  }

  /** `documents.findIndex(doc => doc.id === id)`. */
  function FindDocument(docs: seq<Document>, id: string): (r: Option<nat>)
    ensures r.Some? ==> r.value < |docs| && docs[r.value].id == id
    ensures r.Some? ==> forall k :: 0 <= k < r.value ==> docs[k].id != id
    ensures r.None? <==> forall k :: 0 <= k < |docs| ==> docs[k].id != id
    decreases |docs|
  {
    if |docs| == 0 then None
    else if docs[0].id == id then Some(0)
    else
      match FindDocument(docs[1..], id)
      case Some(k) => Some(k + 1)
      case None => None
  }

  /** The list after `deleteDocument(id)`. */
  function RemoveDocument(docs: seq<Document>, id: string): seq<Document> {
    match FindDocument(docs, id)
    case None => docs
    case Some(i) => docs[..i] + docs[i + 1..]
  }

  /** The document `uploadDocument` creates. */
  function NewDocument(file: FileInfo, nowMs: nat, isoNow: string): Document {
    Document("doc" + NatToString(nowMs), file.name, "", FileType(file.name), file.size, isoNow)
  }

  class KnowledgeStore {
    var documents: seq<Document>
    var isLoading: bool
    var error: Option<string>

    constructor ()
      ensures documents == [] && !isLoading && error.None?
    {
      documents := [];
      isLoading := false;
      error := None;
    }

    /** `loadDocuments`: installs the fixed list and returns it. */
    method LoadDocuments() returns (docs: seq<Document>)
      modifies this
      ensures documents == SampleDocuments && docs == documents
      ensures !isLoading && error.None?
    {
      isLoading := true;
      error := None;
      documents := SampleDocuments;
      isLoading := false;
      docs := documents;
    }

    /** `uploadDocument`: appends a document built from the file and the clock. */
    method UploadDocument(file: FileInfo, nowMs: nat, isoNow: string) returns (doc: Document)
      modifies this
      ensures doc == NewDocument(file, nowMs, isoNow)
      ensures documents == old(documents) + [doc]
      ensures !isLoading && error.None?
    {
      isLoading := true;
      error := None;
      doc := NewDocument(file, nowMs, isoNow);
      documents := documents + [doc];
      isLoading := false;
    }

    /** `deleteDocument`: removes the first document with the id, if any, and
        resolves to `true` either way. */
    method DeleteDocument(documentId: string) returns (ok: bool)
      modifies this
      ensures ok
      ensures documents == RemoveDocument(old(documents), documentId)
      ensures !isLoading && error.None?
    {
      isLoading := true;
      error := None;
      var index := FindDocument(documents, documentId);
      if index.Some? {
        documents := documents[..index.value] + documents[index.value + 1..];
      }
      isLoading := false;
      ok := true;
    }
  }
}

/** What the knowledge store's operations promise. */
module KnowledgeProperties {
  import opened Wrappers
  import opened Text
  import opened JsonValues
  import opened Knowledge
  import opened Sequences

  /** The recorded type is the lower-cased text after the last dot, or the whole
      lower-cased name when there is no dot. */
  lemma FileTypeSpec(name: string)
    ensures '.' !in name ==> FileType(name) == ToLowerAscii(name)
    ensures '.' in name ==>
      exists i :: 0 <= i < |name| && name[i] == '.' && FileType(name) == ToLowerAscii(name[i + 1..])
                  && '.' !in name[i + 1..]
  {
    var i := LastDot(name);
    if i < 0 {
      assert name[0..] == name;
    } else {
      var t := name[i + 1..];
      forall k | 0 <= k < |t|
        ensures t[k] != '.'
      {
        assert t[k] == name[i + 1 + k];
      }
    }
  }

  /** A stem, a dot and a lower-case extension without dots record that
      extension as the type. */
  lemma TypeOfExtension(stem: string, ext: string)
    requires forall k :: 0 <= k < |ext| ==> ext[k] != '.' && !('A' <= ext[k] <= 'Z')
    ensures FileType(stem + "." + ext) == ext
  {
    var name := stem + "." + ext;
    assert name[|stem|] == '.';
    assert forall k :: |stem| < k < |name| ==> name[k] == ext[k - |stem| - 1];
    assert LastDot(name) == |stem|;
    assert name[|stem| + 1..] == ext;
  }

  /** Deleting an unknown id changes nothing; otherwise exactly the first
      document with that id goes and the rest keep their order. */
  lemma RemoveDocumentSpec(docs: seq<Document>, id: string)
    ensures FindDocument(docs, id).None? ==> RemoveDocument(docs, id) == docs
    ensures FindDocument(docs, id).Some? ==>
      var i := FindDocument(docs, id).value;
      var rest := RemoveDocument(docs, id);
      && |rest| == |docs| - 1
      && (forall k :: 0 <= k < i ==> rest[k] == docs[k])
      && (forall k :: i <= k < |rest| ==> rest[k] == docs[k + 1])
      && multiset(rest) + multiset{docs[i]} == multiset(docs)
  {
    if FindDocument(docs, id).Some? {
      var i := FindDocument(docs, id).value;
      assert RemoveDocument(docs, id) == docs[..i] + docs[i + 1..];
      SpliceOut(docs, i);
    }
  }

  /** Deleting a just-uploaded document whose id was new restores the list. */
  lemma UploadThenDelete(docs: seq<Document>, file: FileInfo, nowMs: nat, isoNow: string)
    requires FindDocument(docs, "doc" + NatToString(nowMs)).None?
    ensures var d := NewDocument(file, nowMs, isoNow);
      RemoveDocument(docs + [d], d.id) == docs
  {
    var d := NewDocument(file, nowMs, isoNow);
    var all := docs + [d];
    assert all[|docs|].id == d.id;
    assert FindDocument(all, d.id) == Some(|docs|);
    assert all[..|docs|] == docs;
  }
}
