/** The Documents panel of components/Documents.tsx: the category selector,
    the list it filters, the file-type icon and the option captions. The
    search box next to the selector holds no state and filters nothing. */
module Documents {
  import opened Seqs

  datatype Document = Document(
    id: string, name: string, fileType: string, client: string, caseTitle: string,
    uploadedBy: string, uploadDate: string, size: string, category: string)

  /** `categories`: the options of the selector, `'all'` first. */
  const Categories: seq<string> :=
    ["all", "Contracts", "Deeds", "Tax Documents", "Templates", "Intellectual Property", "Court Documents"]

  function InCategory(docs: seq<Document>, category: string): (r: seq<Document>)
    ensures |r| <= |docs|
  {
    Filter(docs, (d: Document) => d.category == category)
  }

  /** `filteredDocuments`: everything for `'all'`, otherwise the documents
      whose category is the selected one. It takes no search term. */
  function FilteredDocuments(docs: seq<Document>, selected: string): (r: seq<Document>)
    ensures |r| <= |docs|
    ensures selected == "all" ==> r == docs
  {
    if selected == "all" then docs else InCategory(docs, selected)
  }

  /** Any category other than `'all'` shows, in the original order, exactly
      the documents filed under it. */
  lemma CategorySelects(docs: seq<Document>, selected: string)
    requires selected != "all"
    ensures var r := FilteredDocuments(docs, selected);
      && IsSubsequence(r, docs)
      && (forall i :: 0 <= i < |r| ==> r[i] in docs && r[i].category == selected)
      && (forall i :: 0 <= i < |docs| ==> (docs[i] in r <==> docs[i].category == selected))
    ensures var r := FilteredDocuments(docs, selected);
      var idx := Positions(docs, (d: Document) => d.category == selected, |docs|);
      && |r| == |idx|
      && (forall k :: 0 <= k < |idx| ==> r[k] == docs[idx[k]])
      && (forall i :: 0 <= i < |docs| ==> (i in idx <==> docs[i].category == selected))
  {
    var p := (d: Document) => d.category == selected;
    FilterIsSubsequence(docs, p);
    FilterMembers(docs, p);
    FilterSelectsPositions(docs, p);
  }

  /** Choosing the same category again shows the same list. */
  lemma CategoryIdempotent(docs: seq<Document>, selected: string)
    ensures FilteredDocuments(FilteredDocuments(docs, selected), selected) == FilteredDocuments(docs, selected)
  {
    if selected != "all" {
      FilterIdempotent(docs, (d: Document) => d.category == selected);
    }
  }

  /** The icon drawn before a file name. */
  datatype Icon = PageIcon | MemoIcon | ChartIcon | FolderIcon

  /** `getFileIcon`. */
  function FileIcon(fileType: string): (icon: Icon)
    ensures icon == PageIcon <==> fileType == "PDF"
    ensures icon == MemoIcon <==> fileType == "DOCX"
    ensures icon == ChartIcon <==> fileType == "XLSX" || fileType == "PPTX"
    ensures icon == FolderIcon <==> fileType !in ["PDF", "DOCX", "XLSX", "PPTX"]
  {
    if fileType == "PDF" then PageIcon
    else if fileType == "DOCX" then MemoIcon
    else if fileType == "XLSX" then ChartIcon
    else if fileType == "PPTX" then ChartIcon
    else FolderIcon
  }

  /** The caption of one option of the selector: the category's own name,
      except that the key 'all' is never shown as such. */
  function OptionCaption(category: string): (caption: string)
    ensures caption != "all"
    ensures category != "all" ==> caption == category
  {
    if category == "all" then "All Categories" else category
  }

  /** The selector reads "All Categories" followed by the six category names,
      and no two options read alike. */
  lemma OptionCaptions()
    ensures var captions := seq(|Categories|, i requires 0 <= i < |Categories| => OptionCaption(Categories[i]));
      && captions == ["All Categories"] + Categories[1..]
      && forall i, j :: 0 <= i < j < |captions| ==> captions[i] != captions[j]
  {
  }

  /** The list seeded into the panel. */
  const SeedDocuments: seq<Document> := [
    Document("1", "Contract Agreement - Johnson.pdf", "PDF", "Johnson Enterprises",
      "Johnson vs. Thompson Contract Dispute", "Sarah Johnson", "2023-07-15", "2.4 MB", "Contracts"),
    Document("2", "Property Deed - Smith.docx", "DOCX", "Smith & Associates",
      "Smith Property Acquisition", "Michael Chen", "2023-07-14", "1.8 MB", "Deeds"),
    Document("3", "Tax Exemption Application.pdf", "PDF", "Davis Foundation",
      "Davis Foundation Tax Exemption", "Emily Rodriguez", "2023-07-10", "3.2 MB", "Tax Documents"),
    Document("4", "Employment Agreement Template.docx", "DOCX", "Thompson Manufacturing",
      "Thompson Employment Agreement", "David Wilson", "2023-07-08", "1.5 MB", "Templates"),
    Document("5", "Trademark Filing - Williams.pdf", "PDF", "Williams Properties",
      "Williams Intellectual Property", "Sarah Johnson", "2023-07-05", "4.1 MB", "Intellectual Property"),
    Document("6", "Court Motion - Johnson Case.docx", "DOCX", "Johnson Enterprises",
      "Johnson vs. Thompson Contract Dispute", "Sarah Johnson", "2023-07-03", "2.7 MB", "Court Documents")
  ]

  /** Every seeded document is filed under one of the selector's categories,
      never under `'all'`, and each of the six categories selects exactly one
      seeded document, the one at the same place in the list. */
  lemma SeedCategories(k: nat)
    requires 1 <= k < |Categories|
    ensures forall i :: 0 <= i < |SeedDocuments| ==>
      SeedDocuments[i].category in Categories && SeedDocuments[i].category != "all"
    ensures FilteredDocuments(SeedDocuments, Categories[k]) == [SeedDocuments[k - 1]]
  {
    var c := Categories[k];
    assert forall i :: 0 <= i < |SeedDocuments| ==> SeedDocuments[i].category == Categories[i + 1];
    FilterSingle(SeedDocuments, (d: Document) => d.category == c, k - 1);
  }

  /** The state of the panel: the document list (never changed) and the
      selected category. */
  class DocumentsPanel {
    const documents: seq<Document>
    var selectedCategory: string

    constructor ()
      ensures documents == SeedDocuments && selectedCategory == "all"
      ensures Shown() == SeedDocuments
    {
      documents := SeedDocuments;
      selectedCategory := "all";
    }

    /** The rows of the table. */
    function Shown(): seq<Document>
      reads this
    {
      FilteredDocuments(documents, selectedCategory)
    }

    /** The selector changed: `setSelectedCategory(e.target.value)`. */
    method SelectCategory(category: string)
      modifies this
      ensures selectedCategory == category && Shown() == FilteredDocuments(documents, category)
    {
      selectedCategory := category;
    }
  }
}
