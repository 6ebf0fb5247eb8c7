/**
 * The document-upload step: three required documents, each uploaded at
 * most once. The component keeps its own list of uploaded document ids and
 * mirrors it into the form data.
 */
module DocumentUploadStage {

  import opened Js
  import opened MultiStageForm

  /** The ids of the documents the step asks for, in display order. */
  const RequiredDocuments: seq<string> := ["id_proof", "address_proof", "income_proof"]

  predicate NoDuplicates(docs: seq<string>) {
    forall i, j :: 0 <= i < j < |docs| ==> docs[i] != docs[j]
  }

  /** The list after uploading `d`: appended when new, unchanged when already there. */
  function Uploaded(docs: seq<string>, d: string): (r: seq<string>)
    ensures d in r
    ensures d in docs ==> r == docs
    ensures d !in docs ==> r == docs + [d]
  {
    if d in docs then docs else docs + [d]
  }

  /** The list as the form field stores it. */
  function DocsValue(docs: seq<string>): (v: Value)
    ensures v.Arr? && |v.items| == |docs|
    ensures forall i :: 0 <= i < |docs| ==> v.items[i] == Str(docs[i])
  {
    Arr(seq(|docs|, i requires 0 <= i < |docs| => Str(docs[i])))
  }

  /** Continue waits for as many uploads as there are required documents. */
  predicate ContinueEnabled(docs: seq<string>) {
    |docs| >= |RequiredDocuments|
  }

  /** Uploading the same document twice is the same as uploading it once. */
  lemma UploadIsIdempotent(docs: seq<string>, d: string)
    ensures Uploaded(Uploaded(docs, d), d) == Uploaded(docs, d)
  {
  }

  /** Uploading keeps the list free of duplicates and adds exactly `d` to its contents. */
  lemma UploadKeepsNoDuplicates(docs: seq<string>, d: string)
    requires NoDuplicates(docs)
    ensures NoDuplicates(Uploaded(docs, d))
    ensures (set x | x in Uploaded(docs, d)) == (set x | x in docs) + {d}
  {
  }

  /** Uploads of required documents keep the list within the required ones. */
  lemma UploadKeepsRequiredOnly(docs: seq<string>, d: string)
    requires forall i :: 0 <= i < |docs| ==> docs[i] in RequiredDocuments
    requires d in RequiredDocuments
    ensures forall i :: 0 <= i < |Uploaded(docs, d)| ==> Uploaded(docs, d)[i] in RequiredDocuments
  {
  }

  /** A list without duplicates has as many distinct ids as entries. */
  lemma {:induction false} DistinctCount(docs: seq<string>)
    requires NoDuplicates(docs)
    ensures |(set x | x in docs)| == |docs|
    decreases |docs|
  {
    if docs != [] {
      var rest := docs[1..];
      assert NoDuplicates(rest) by {
        forall i, j | 0 <= i < j < |rest|
          ensures rest[i] != rest[j]
        {
          assert rest[i] == docs[i + 1] && rest[j] == docs[j + 1];
        }
      }
      DistinctCount(rest);
      assert docs[0] !in rest by {
        forall i | 0 <= i < |rest|
          ensures rest[i] != docs[0]
        {
          assert rest[i] == docs[i + 1];
        }
      }
      assert (set x | x in docs) == (set x | x in rest) + {docs[0]} by {
        assert docs == [docs[0]] + rest;
      }
    }
  }

  /** A subset at least as large as the whole set is the whole set. */
  lemma {:induction false} FullSubset(a: set<string>, b: set<string>)
    requires a <= b && |a| >= |b|
    ensures a == b
  {
    if a != b {
      var x :| x in b && x !in a;
      assert a <= b - {x};
      assert |a| <= |b - {x}| by {
        SubsetCard(a, b - {x});
      }
    }
  }

  lemma {:induction false} SubsetCard(a: set<string>, b: set<string>)
    requires a <= b
    ensures |a| <= |b|
    decreases |b|
  {
    if a != {} {
      var x :| x in a;
      SubsetCard(a - {x}, b - {x});
    }
  }

  /**
   * For a duplicate-free list of required ids, the length test of the
   * Continue button holds exactly when every required document is present.
   */
  lemma ContinueIffAllRequiredUploaded(docs: seq<string>)
    requires NoDuplicates(docs)
    requires forall i :: 0 <= i < |docs| ==> docs[i] in RequiredDocuments
    ensures ContinueEnabled(docs) <==> forall r :: r in RequiredDocuments ==> r in docs
  {
    var have := set x | x in docs;
    var need := set x | x in RequiredDocuments;
    DistinctCount(docs);
    DistinctCount(RequiredDocuments);
    assert have <= need;
    if ContinueEnabled(docs) {
      FullSubset(have, need);
      assert forall r :: r in RequiredDocuments ==> r in have;
    }
    if forall r :: r in RequiredDocuments ==> r in docs {
      assert need <= have;
      SubsetCard(need, have);
    }
  }

  /** The upload panel's local list beside one instance of the form hook. */
  class UploadPanel {
    const form: FormSession
    var uploadedDocs: seq<string>

    ghost predicate Valid()
      reads this
    {
      NoDuplicates(uploadedDocs)
    }

    /**
     * The list is initialised on the first render, when the hook has not yet
     * loaded the saved draft, so it always starts empty.
     */
    constructor (form: FormSession)
      ensures this.form == form && uploadedDocs == [] && Valid()
    {
      this.form := form;
      uploadedDocs := [];
    }

    /** Upload one document: a new id is appended and written to the form; a known id changes nothing. */
    method HandleUpload(d: string)
      requires Valid() && form.Valid()
      modifies this, form
      ensures Valid() && form.Valid()
      ensures uploadedDocs == Uploaded(old(uploadedDocs), d)
      ensures d in old(uploadedDocs) ==> form.State() == old(form.State())
      ensures d !in old(uploadedDocs) ==>
        form.State() == FieldUpdated(old(form.State()), "uploadedDocs", DocsValue(uploadedDocs))
    {
      var newDocs := uploadedDocs;
      if d !in newDocs {
        newDocs := newDocs + [d];
        uploadedDocs := newDocs;
        form.UpdateField("uploadedDocs", DocsValue(newDocs));
      }
    }
  }
}
