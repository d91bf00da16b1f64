/**
 * The documents page (src/pages/Documents.tsx): the document search, the status counts on the
 * summary cards, the per-status icon and badge, and the notes under a document.
 */
module Documents {
  import opened Wrappers
  import opened JsText
  import opened Seqs

  datatype Document = Document(id: int, name: string, kind: string, status: string, expires: string,
                               uploadedDate: string, daysUntilExpiry: Option<int>, rejectionReason: Option<string>)

  /** The document's name or type contains the query, ignoring case. */
  predicate MatchesQuery(d: Document, q: string) {
    Contains(ToLower(d.name), ToLower(q)) || Contains(ToLower(d.kind), ToLower(q))
  }

  /** `filteredDocs`. */
  function FilteredDocs(docs: seq<Document>, q: string): seq<Document> {
    Filter(docs, (d: Document) => MatchesQuery(d, q))
  }

  /** The search keeps, in order, exactly the documents whose name or type contains the query; an empty query keeps all. */
  lemma FilteredDocsSpec(docs: seq<Document>, q: string)
    ensures IsSubsequence(FilteredDocs(docs, q), docs)
    ensures forall d :: d in FilteredDocs(docs, q) <==> d in docs && MatchesQuery(d, q)
    ensures q == [] ==> FilteredDocs(docs, q) == docs
  {
    var keep := (d: Document) => MatchesQuery(d, q);
    FilterIsSubsequence(docs, keep);
    forall d ensures d in FilteredDocs(docs, q) <==> d in docs && keep(d) {
      FilterMembership(docs, keep, d);
    }
    if q == [] {
      assert ToLower(q) == [];
      forall d | d in docs ensures keep(d) {
        ContainsEmpty(ToLower(d.name));
      }
      FilterKeepsAll(docs, keep);
    }
  }

  function CountStatus(docs: seq<Document>, status: string): nat {
    |Filter(docs, (d: Document) => d.status == status)|
  }

  datatype Stats = Stats(total: nat, approved: nat, pending: nat, expiring: nat, rejected: nat)

  /** `stats`: counted over every document, not the search result. */
  function GetStats(docs: seq<Document>): (s: Stats)
    ensures s.total == |docs|
    ensures s.approved <= s.total && s.pending <= s.total && s.expiring <= s.total && s.rejected <= s.total
    ensures s.approved + s.pending + s.expiring + s.rejected <= s.total
  {
    var s := Stats(|docs|, CountStatus(docs, "approved"), CountStatus(docs, "pending"),
                   CountStatus(docs, "expiring"), CountStatus(docs, "rejected"));
    StatusCountsDisjoint(docs);
    s
  }

  /** The four status counts never count a document twice. */
  lemma StatusCountsDisjoint(docs: seq<Document>)
    ensures CountStatus(docs, "approved") + CountStatus(docs, "pending")
          + CountStatus(docs, "expiring") + CountStatus(docs, "rejected")
         == |Filter(docs, (d: Document) => d.status == "approved" || d.status == "pending"
                                        || d.status == "expiring" || d.status == "rejected")|
    ensures CountStatus(docs, "approved") + CountStatus(docs, "pending")
          + CountStatus(docs, "expiring") + CountStatus(docs, "rejected") <= |docs|
  {
    var a := (d: Document) => d.status == "approved";
    var p := (d: Document) => d.status == "pending";
    var e := (d: Document) => d.status == "expiring";
    var r := (d: Document) => d.status == "rejected";
    var ap := (d: Document) => a(d) || p(d);
    var er := (d: Document) => e(d) || r(d);
    FilterCountDisjoint(docs, a, p, ap);
    FilterCountDisjoint(docs, e, r, er);
    FilterCountDisjoint(docs, ap, er, (d: Document) => d.status == "approved" || d.status == "pending"
                                                   || d.status == "expiring" || d.status == "rejected");
  }

  /** The "Action Needed" card: expiring plus rejected, i.e. the documents with either status. */
  function ActionNeeded(s: Stats): nat {
    s.expiring + s.rejected
  }

  lemma ActionNeededCountsBoth(docs: seq<Document>)
    ensures ActionNeeded(GetStats(docs)) == |Filter(docs, (d: Document) => d.status == "expiring" || d.status == "rejected")|
    ensures ActionNeeded(GetStats(docs)) <= |docs|
  {
    FilterCountDisjoint(docs, (d: Document) => d.status == "expiring", (d: Document) => d.status == "rejected",
                        (d: Document) => d.status == "expiring" || d.status == "rejected");
  }

  /** The searched list never holds more documents of a status than its card counts. */
  lemma SearchWithinStats(docs: seq<Document>, q: string, status: string)
    ensures |Filter(FilteredDocs(docs, q), (d: Document) => d.status == status)| <= CountStatus(docs, status)
  {
    FilterCompose(docs, (d: Document) => MatchesQuery(d, q), (d: Document) => d.status == status,
                  (d: Document) => MatchesQuery(d, q) && d.status == status);
    FilterCountMonotone(docs, (d: Document) => MatchesQuery(d, q) && d.status == status, (d: Document) => d.status == status);
  }

  datatype Icon = CheckCircle | Clock | AlertTriangle | XCircle
  datatype Tone = Success | Warning | Destructive

  /** getStatusIcon. */
  function StatusIcon(status: string): (i: Option<(Icon, Tone)>)
    ensures i.Some? <==> status in {"approved", "pending", "expiring", "rejected"}
    ensures i.Some? ==> i.value.1 == DocumentTone(status)
  {
    if status == "approved" then Some((CheckCircle, Success))
    else if status == "pending" then Some((Clock, Warning))
    else if status == "expiring" then Some((AlertTriangle, Warning))
    else if status == "rejected" then Some((XCircle, Destructive))
    else None
  }

  datatype Badge = Badge(caption: string, className: string)

  /** getStatusBadge. */
  function StatusBadge(status: string): (b: Option<Badge>)
    ensures b.Some? <==> StatusIcon(status).Some?
  {
    if status == "approved" then Some(Badge("Approved", "status-approved border"))
    else if status == "pending" then Some(Badge("Pending Review", "status-pending border"))
    else if status == "expiring" then Some(Badge("Expiring Soon", "status-pending border"))
    else if status == "rejected" then Some(Badge("Rejected", "status-rejected border"))
    else None
  }

  /** The tint of a document's file icon; every status other than the three named is shown as a success. */
  function DocumentTone(status: string): (t: Tone)
    ensures t == Destructive <==> status == "rejected"
    ensures t == Warning <==> status == "expiring" || status == "pending"
  {
    if status == "rejected" then Destructive
    else if status == "expiring" || status == "pending" then Warning
    else Success
  }

  /** The rejection reason shows for a rejected document that has a non-empty one. */
  function RejectionNote(d: Document): (n: Option<string>)
    ensures n.Some? <==> d.status == "rejected" && d.rejectionReason.Some? && d.rejectionReason.value != []
    ensures n.Some? ==> n == d.rejectionReason
  {
    if d.status == "rejected" && d.rejectionReason.Some? && d.rejectionReason.value != [] then d.rejectionReason else None
  }

  /** The "Expires in N days" note shows for expiring documents only. */
  predicate ShowsExpiryNote(d: Document) {
    d.status == "expiring"
  }

  /** No document carries both notes. */
  lemma NotesExclusive(d: Document)
    ensures !(ShowsExpiryNote(d) && RejectionNote(d).Some?)
  {
  }
}
