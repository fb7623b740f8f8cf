/** The subcontractors page: paid-to-date and progress of each contract
    (`fetchData`), the partner directory search, registration of a new
    partner, and the progress bar of a contract row.

    Store replies are parameters: the job list as the store returned it
    (None when no data), and the reply to the partner insert. */
module Subcontractors {
  import opened Common

  datatype Subcontractor = Subcontractor(id: string, name: string, trade: string, contactInfo: string, status: string)

  /** A contract with the amounts of its payments (None when the join
      returned nothing). */
  datatype Job = Job(id: string, projectId: string, subcontractorId: string, description: string,
                     agreedPrice: real, status: string, payments: Option<seq<real>>)

  /** A contract as the page shows it: the stored row plus the two
      computed properties. */
  datatype ProcessedJob = ProcessedJob(job: Job, totalPaid: real, progress: real)

  /** `subcontractor_payments?.reduce((sum, p) => sum + p.amount, 0) || 0` */
  function TotalPaid(payments: Option<seq<real>>): real
  {
    if payments.Some? then Sum(payments.value) else 0.0
  }

  /** `agreed_price > 0 ? totalPaid / agreed_price * 100 : 0`, with what
      the percentage means. */
  function Progress(totalPaid: real, agreedPrice: real): (p: real)
    ensures agreedPrice <= 0.0 ==> p == 0.0
    ensures agreedPrice > 0.0 ==> (p >= 100.0 <==> totalPaid >= agreedPrice)
    ensures agreedPrice > 0.0 ==> (p == 0.0 <==> totalPaid == 0.0)
    ensures agreedPrice > 0.0 ==> p * agreedPrice == totalPaid * 100.0
  {
    if agreedPrice > 0.0 then (totalPaid / agreedPrice) * 100.0 else 0.0
  }

  function ProcessJob(job: Job): ProcessedJob
  {
    var totalPaid := TotalPaid(job.payments);
    ProcessedJob(job, totalPaid, Progress(totalPaid, job.agreedPrice))
  }

  /** `jobData?.map(...) || []`: every contract kept, in order, its row
      unchanged and the two properties added. */
  function ProcessJobs(jobData: Option<seq<Job>>): (r: seq<ProcessedJob>)
    ensures |r| == |OrEmpty(jobData)|
    ensures forall i :: 0 <= i < |r| ==>
              r[i].job == OrEmpty(jobData)[i]
              && r[i].totalPaid == TotalPaid(OrEmpty(jobData)[i].payments)
              && r[i].progress == Progress(r[i].totalPaid, OrEmpty(jobData)[i].agreedPrice)
  {
    var jobs := OrEmpty(jobData);
    seq(|jobs|, i requires 0 <= i < |jobs| => ProcessJob(jobs[i]))
  }

  /** Payments that are all non-negative give a non-negative total. */
  lemma TotalPaidNonNegative(payments: Option<seq<real>>)
    requires payments.Some? ==> forall i :: 0 <= i < |payments.value| ==> payments.value[i] >= 0.0
    ensures TotalPaid(payments) >= 0.0
  {
    if payments.Some? {
      SumNonNegative(payments.value);
    }
  }

  /** The directory search: name or trade contains the term, ignoring case. */
  predicate Matches(s: Subcontractor, term: string)
  {
    ContainsIgnoringCase(s.name, term) || ContainsIgnoringCase(s.trade, term)
  }

  function SearchFilter(term: string): Subcontractor -> bool
  {
    (s: Subcontractor) => Matches(s, term)
  }

  /** `filteredSubs` */
  function FilteredSubs(subs: seq<Subcontractor>, term: string): (r: seq<Subcontractor>)
    ensures forall s :: s in r <==> s in subs && Matches(s, term)
  {
    Filter(subs, SearchFilter(term))
  }

  /** An empty search term keeps every partner, in order. */
  lemma EmptySearchKeepsAll(subs: seq<Subcontractor>)
    ensures FilteredSubs(subs, "") == subs
  {
    forall i | 0 <= i < |subs|
      ensures SearchFilter("")(subs[i])
    {
      ContainsEmpty(Lower(subs[i].name));
      assert Lower("") == "";
    }
    FilterKeepsAll(subs, SearchFilter(""));
  }

  datatype SubForm = SubForm(name: string, trade: string, contactInfo: string)

  /** The row sent to the store. */
  datatype NewSubcontractor = NewSubcontractor(name: string, trade: string, contactInfo: string, status: string)

  /** The store's reply to the insert: an error, the stored row, or no
      data and no error. */
  datatype InsertReply = InsertError(message: string) | InsertedRow(row: Subcontractor) | NothingReturned

  /** The page after `handleCreateSubcontractor`: what was written (None
      when validation refused), the partner list and the form. */
  datatype CreateState = CreateState(written: Option<NewSubcontractor>, subs: seq<Subcontractor>, form: SubForm)

  function CreateSubcontractor(subs: seq<Subcontractor>, form: SubForm, reply: InsertReply): (r: CreateState)
    // nothing is written without a name and a trade
    ensures r.written.None? <==> form.name == "" || form.trade == ""
    // a new partner is active and carries the form's fields
    ensures r.written.Some? ==> r.written.value == NewSubcontractor(form.name, form.trade, form.contactInfo, "active")
    // the stored row is appended at the end; otherwise the list is unchanged
    ensures r.written.Some? && reply.InsertedRow? ==> r.subs == subs + [reply.row] && r.form == SubForm("", "", "")
    ensures !(r.written.Some? && reply.InsertedRow?) ==> r.subs == subs && r.form == form
  {
    if form.name == "" || form.trade == "" then CreateState(None, subs, form)
    else
      var row := NewSubcontractor(form.name, form.trade, form.contactInfo, "active");
      match reply
      case InsertedRow(stored) => CreateState(Some(row), subs + [stored], SubForm("", "", ""))
      case _ => CreateState(Some(row), subs, form)
  }

  datatype ProgressBar = ProgressBar(width: real, complete: bool)

  /** The bar of a contract row: `min(progress || 0, 100)` wide, green when
      `progress && progress >= 100`. */
  function Bar(progress: Option<real>): (b: ProgressBar)
    ensures b.width <= 100.0
    ensures b.complete <==> progress.Some? && progress.value >= 100.0
    ensures b.complete ==> b.width == 100.0
    ensures progress.Some? && progress.value <= 100.0 ==> b.width == progress.value
    ensures progress.None? ==> b.width == 0.0
  {
    var p := NumberOr(progress, 0.0);
    ProgressBar(if p < 100.0 then p else 100.0, progress.Some? && progress.value != 0.0 && progress.value >= 100.0)
  }
}
