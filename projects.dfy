/** The projects page: what each project has spent so far, assembled from
    four store queries (`fetchProjects`), the budget categories of the
    "new project" form, creation of a project with its categories, and the
    budget progress shown on each project card.

    The queries are oracles: each list is what the store returned, None
    when it returned no data. `parse` stands for `parseFloat` on a typed
    amount (None when it yields NaN). */
module Projects {
  import opened Common

  /** `CATEGORY_COLORS` */
  const CategoryColors: seq<string> :=
    ["#989168", "#2b251d", "#857b5a", "#c7c8ad", "#e7e8dd", "#d97706", "#059669", "#2563eb"]

  datatype Project = Project(id: string, name: string, location: string, budget: real,
                             startDate: string, status: string)

  /** A project as the page lists it: the stored row plus `spent`. */
  datatype ProjectWithSpent = ProjectWithSpent(project: Project, spent: real)

  datatype InvoiceLine = InvoiceLine(quantity: Option<real>, unitPrice: Option<real>, status: string)

  datatype Invoice = Invoice(projectId: Option<string>, exchangeRate: Option<real>, lines: seq<InvoiceLine>)

  datatype Timesheet = Timesheet(projectId: Option<string>, calculatedCost: Option<real>)

  /** A subcontractor job with the amounts of its payments (None when the
      join returned nothing). */
  datatype Job = Job(projectId: Option<string>, payments: Option<seq<Option<real>>>)

  datatype Expense = Expense(projectId: Option<string>, amount: Option<real>)

  // ---------------------------------------------------------------------
  // Material spend
  // ---------------------------------------------------------------------

  /** `inv.exchange_rate || 1` */
  function Rate(inv: Invoice): real
  {
    NumberOr(inv.exchangeRate, 1.0)
  }

  predicate IsConfirmed(line: InvoiceLine)
  {
    line.status == "confirmed"
  }

  /** What one invoice line adds to the material spend. */
  function LineCost(line: InvoiceLine, rate: real): real
  {
    if IsConfirmed(line) then NumberOr(line.quantity, 0.0) * NumberOr(line.unitPrice, 0.0) * rate else 0.0
  }

  function LinesSpend(lines: seq<InvoiceLine>, rate: real): real
  {
    if lines == [] then 0.0 else LinesSpend(lines[..|lines| - 1], rate) + LineCost(lines[|lines| - 1], rate)
  }

  function InvoiceSpend(inv: Invoice): real
  {
    LinesSpend(inv.lines, Rate(inv))
  }

  predicate BelongsTo(inv: Invoice, pid: string)
  {
    inv.projectId == Some(pid)
  }

  /** Reference definition of a project's material spend: every invoice of
      the list, those of other projects contributing nothing. */
  function MaterialSpend(invoices: seq<Invoice>, pid: string): real
  {
    if invoices == [] then 0.0
    else
      var inv := invoices[|invoices| - 1];
      MaterialSpend(invoices[..|invoices| - 1], pid) + (if BelongsTo(inv, pid) then InvoiceSpend(inv) else 0.0)
  }

  function InvoicesOf(pid: string): Invoice -> bool
  {
    (inv: Invoice) => BelongsTo(inv, pid)
  }

  /** Keeping only the project's invoices first, as the page does, does
      not change the material spend. */
  lemma {:induction false} MaterialSpendOfOwnInvoices(invoices: seq<Invoice>, pid: string)
    ensures MaterialSpend(Filter(invoices, InvoicesOf(pid)), pid) == MaterialSpend(invoices, pid)
    decreases |invoices|
  {
    if invoices != [] {
      var prefix, inv := invoices[..|invoices| - 1], invoices[|invoices| - 1];
      assert invoices == prefix + [inv];
      FilteredSpendSnoc(prefix, inv, pid);
      MaterialSpendOfOwnInvoices(prefix, pid);
    }
  }

  /** The filtered spend of a list extended by one invoice grows by that
      invoice's own spend. */
  lemma FilteredSpendSnoc(prefix: seq<Invoice>, inv: Invoice, pid: string)
    ensures MaterialSpend(Filter(prefix + [inv], InvoicesOf(pid)), pid)
            == MaterialSpend(Filter(prefix, InvoicesOf(pid)), pid) + (if BelongsTo(inv, pid) then InvoiceSpend(inv) else 0.0)
  {
    var keep := InvoicesOf(pid);
    var kept := Filter(prefix, keep);
    FilterSnoc(prefix, inv, keep);
    if keep(inv) {
      SpendSnoc(kept, inv, pid);
    } else {
      assert kept + [] == kept;
    }
  }

  lemma SpendSnoc(invoices: seq<Invoice>, inv: Invoice, pid: string)
    ensures MaterialSpend(invoices + [inv], pid)
            == MaterialSpend(invoices, pid) + (if BelongsTo(inv, pid) then InvoiceSpend(inv) else 0.0)
  {
    assert (invoices + [inv])[..|invoices|] == invoices;
  }

  /** Lines that are not confirmed contribute nothing: the spend of an
      invoice is that of its confirmed lines alone. */
  lemma {:induction false} OnlyConfirmedLinesCount(lines: seq<InvoiceLine>, rate: real)
    ensures LinesSpend(Filter(lines, IsConfirmed), rate) == LinesSpend(lines, rate)
    decreases |lines|
  {
    if lines != [] {
      var prefix, line := lines[..|lines| - 1], lines[|lines| - 1];
      assert lines == prefix + [line];
      ConfirmedSpendSnoc(prefix, line, rate);
      OnlyConfirmedLinesCount(prefix, rate);
    }
  }

  /** The spend of the confirmed lines of a list extended by one line grows
      by that line's cost. */
  lemma ConfirmedSpendSnoc(prefix: seq<InvoiceLine>, line: InvoiceLine, rate: real)
    ensures LinesSpend(Filter(prefix + [line], IsConfirmed), rate)
            == LinesSpend(Filter(prefix, IsConfirmed), rate) + LineCost(line, rate)
  {
    var kept := Filter(prefix, IsConfirmed);
    FilterSnoc(prefix, line, IsConfirmed);
    if IsConfirmed(line) {
      LinesSnoc(kept, line, rate);
    } else {
      assert kept + [] == kept;
    }
  }

  lemma LinesSnoc(lines: seq<InvoiceLine>, line: InvoiceLine, rate: real)
    ensures LinesSpend(lines + [line], rate) == LinesSpend(lines, rate) + LineCost(line, rate)
  {
    assert (lines + [line])[..|lines|] == lines;
  }

  /** One more line of an invoice adds its cost. */
  lemma LineStep(lines: seq<InvoiceLine>, j: nat, rate: real)
    requires j < |lines|
    ensures LinesSpend(lines[..j + 1], rate) == LinesSpend(lines[..j], rate) + LineCost(lines[j], rate)
  {
    assert lines[..j + 1] == lines[..j] + [lines[j]];
    LinesSnoc(lines[..j], lines[j], rate);
  }

  /** One more invoice of the project adds its whole spend. */
  lemma OwnInvoiceStep(invoices: seq<Invoice>, k: nat, pid: string)
    requires k < |invoices| && BelongsTo(invoices[k], pid)
    ensures MaterialSpend(invoices[..k + 1], pid) == MaterialSpend(invoices[..k], pid) + InvoiceSpend(invoices[k])
  {
    assert invoices[..k + 1] == invoices[..k] + [invoices[k]];
    SpendSnoc(invoices[..k], invoices[k], pid);
  }

  /** The inner `forEach` over one invoice's lines: `spent` grows by the
      cost of each confirmed line at the invoice's rate. */
  method AddConfirmedLines(spent: real, lines: seq<InvoiceLine>, rate: real) returns (total: real)
    ensures total == spent + LinesSpend(lines, rate)
  {
    total := spent;
    for j := 0 to |lines|
      invariant total == spent + LinesSpend(lines[..j], rate)
    {
      var line := lines[j];
      LineStep(lines, j, rate);
      ghost var previous := total;
      if line.status == "confirmed" {
        total := total + NumberOr(line.quantity, 0.0) * NumberOr(line.unitPrice, 0.0) * rate;
      }
      assert total == previous + LineCost(line, rate);
    }
    assert lines[..|lines|] == lines;
  }

  /** The outer `forEach` accumulating `materialSpent` over the project's
      invoices. */
  method MaterialSpent(invoices: Option<seq<Invoice>>, pid: string) returns (spent: real)
    ensures spent == MaterialSpend(OrEmpty(invoices), pid)
  {
    var projectInvoices := Filter(OrEmpty(invoices), InvoicesOf(pid));
    assert forall i :: 0 <= i < |projectInvoices| ==> BelongsTo(projectInvoices[i], pid);
    spent := 0.0;
    for k := 0 to |projectInvoices|
      invariant spent == MaterialSpend(projectInvoices[..k], pid)
    {
      var inv := projectInvoices[k];
      spent := AddConfirmedLines(spent, inv.lines, Rate(inv));
      OwnInvoiceStep(projectInvoices, k, pid);
    }
    assert projectInvoices[..|projectInvoices|] == projectInvoices;
    MaterialSpendOfOwnInvoices(OrEmpty(invoices), pid);
  }

  // ---------------------------------------------------------------------
  // Labour, subcontractor and direct-expense spend
  // ---------------------------------------------------------------------

  /** Sum of `calculated_cost || 0` over the project's timesheets. */
  function LabourSpend(timesheets: seq<Timesheet>, pid: string): real
  {
    if timesheets == [] then 0.0
    else
      var t := timesheets[|timesheets| - 1];
      LabourSpend(timesheets[..|timesheets| - 1], pid)
        + (if t.projectId == Some(pid) then NumberOr(t.calculatedCost, 0.0) else 0.0)
  }

  function PaymentsSum(amounts: seq<Option<real>>): real
  {
    if amounts == [] then 0.0 else PaymentsSum(amounts[..|amounts| - 1]) + NumberOr(amounts[|amounts| - 1], 0.0)
  }

  /** What one job adds: its payments' amounts, 0 when it has none. */
  function JobPaid(job: Job): real
  {
    if job.payments.Some? then PaymentsSum(job.payments.value) else 0.0
  }

  function SubcontractorSpend(jobs: seq<Job>, pid: string): real
  {
    if jobs == [] then 0.0
    else
      var job := jobs[|jobs| - 1];
      SubcontractorSpend(jobs[..|jobs| - 1], pid) + (if job.projectId == Some(pid) then JobPaid(job) else 0.0)
  }

  /** The `forEach` accumulating `subSpent` over the project's jobs. */
  method SubcontractorSpent(jobs: Option<seq<Job>>, pid: string) returns (spent: real)
    ensures spent == SubcontractorSpend(OrEmpty(jobs), pid)
  {
    var all := OrEmpty(jobs);
    spent := 0.0;
    for k := 0 to |all|
      invariant spent == SubcontractorSpend(all[..k], pid)
    {
      assert all[..k + 1][..k] == all[..k];
      if all[k].projectId == Some(pid) {
        spent := spent + JobPaid(all[k]);
      }
    }
    assert all[..|all|] == all;
  }

  /** Sum of `Number(amount) || 0` over the project's direct expenses. */
  function ExpenseSpend(expenses: seq<Expense>, pid: string): real
  {
    if expenses == [] then 0.0
    else
      var e := expenses[|expenses| - 1];
      ExpenseSpend(expenses[..|expenses| - 1], pid) + (if e.projectId == Some(pid) then NumberOr(e.amount, 0.0) else 0.0)
  }

  /** `spent` of a project: material + labour + subcontractors + expenses. */
  function Spent(pid: string, invoices: Option<seq<Invoice>>, timesheets: Option<seq<Timesheet>>,
                 jobs: Option<seq<Job>>, expenses: Option<seq<Expense>>): real
  {
    MaterialSpend(OrEmpty(invoices), pid) + LabourSpend(OrEmpty(timesheets), pid)
      + SubcontractorSpend(OrEmpty(jobs), pid) + ExpenseSpend(OrEmpty(expenses), pid)
  }

  /** `projData.map(...)`: one entry per project, in order, the stored row
      unchanged and `spent` added. */
  method ProjectsWithSpent(projects: seq<Project>, invoices: Option<seq<Invoice>>,
                           timesheets: Option<seq<Timesheet>>, jobs: Option<seq<Job>>,
                           expenses: Option<seq<Expense>>)
    returns (rows: seq<ProjectWithSpent>)
    ensures projects == [] ==> rows == []
    ensures |rows| == |projects|
    ensures forall i :: 0 <= i < |rows| ==>
              rows[i].project == projects[i]
              && rows[i].spent == Spent(projects[i].id, invoices, timesheets, jobs, expenses)
  {
    rows := [];
    if projects == [] {
      return;
    }
    for i := 0 to |projects|
      invariant |rows| == i
      invariant forall j :: 0 <= j < i ==>
                  rows[j].project == projects[j]
                  && rows[j].spent == Spent(projects[j].id, invoices, timesheets, jobs, expenses)
    {
      var p := projects[i];
      var materialSpent := MaterialSpent(invoices, p.id);
      var laborSpent := LabourSpend(OrEmpty(timesheets), p.id);
      var subSpent := SubcontractorSpent(jobs, p.id);
      var directExpensesSpent := ExpenseSpend(OrEmpty(expenses), p.id);
      rows := rows + [ProjectWithSpent(p, materialSpent + laborSpent + subSpent + directExpensesSpent)];
    }
  }

  // ---------------------------------------------------------------------
  // Budget categories of the "new project" form
  // ---------------------------------------------------------------------

  datatype Category = Category(name: string, amount: string, color: string)

  datatype CategoryField = NameField | AmountField

  function InitialCategories(): seq<Category>
  {
    [Category("Anyagköltség", "", CategoryColors[0]), Category("Munkadíj", "", CategoryColors[1])]
  }

  /** `handleAddCategory`: a blank row coloured by position, colours
      repeating every eight rows. */
  function AddCategory(cats: seq<Category>): (r: seq<Category>)
    ensures |r| == |cats| + 1 && r[..|cats|] == cats
    ensures r[|cats|].name == "" && r[|cats|].amount == ""
    ensures r[|cats|].color == CategoryColors[|cats| % |CategoryColors|]
  {
    cats + [Category("", "", CategoryColors[|cats| % |CategoryColors|])]
  }

  /** `filter((_, i) => i !== index)`, walking positions from `from`. */
  function DropIndex(cats: seq<Category>, index: int, from: int): seq<Category>
    decreases |cats|
  {
    if cats == [] then []
    else (if from == index then [] else [cats[0]]) + DropIndex(cats[1..], index, from + 1)
  }

  /** `handleRemoveCategory`: exactly the row at `index` disappears; an
      index outside the list changes nothing. */
  function RemoveCategory(cats: seq<Category>, index: int): (r: seq<Category>)
    ensures 0 <= index < |cats| ==> r == cats[..index] + cats[index + 1..]
    ensures !(0 <= index < |cats|) ==> r == cats
  {
    DropIndexRemoves(cats, index, 0);
    DropIndex(cats, index, 0)
  }

  /** Dropping position `index` from a list whose first element sits at
      position `from`. */
  lemma DropIndexRemoves(cats: seq<Category>, index: int, from: int)
    ensures from <= index < from + |cats| ==> DropIndex(cats, index, from) == cats[..index - from] + cats[index - from + 1..]
    ensures !(from <= index < from + |cats|) ==> DropIndex(cats, index, from) == cats
  {
    if from <= index < from + |cats| {
      DropIndexDropsOne(cats, index, from);
    } else {
      DropIndexKeepsAll(cats, index, from);
    }
  }

  lemma {:induction false} DropIndexDropsOne(cats: seq<Category>, index: int, from: int)
    requires from <= index < from + |cats|
    ensures DropIndex(cats, index, from) == cats[..index - from] + cats[index - from + 1..]
    decreases |cats|
  {
    if from == index {
      DropIndexKeepsAll(cats[1..], index, from + 1);
      assert cats[..0] + cats[1..] == cats[1..];
    } else {
      DropIndexDropsOne(cats[1..], index, from + 1);
      var k, rest := index - from, cats[1..];
      assert rest[..k - 1] == cats[1..k] && rest[k..] == cats[k + 1..];
      assert [cats[0]] + cats[1..k] == cats[..k];
      ConcatAssociative([cats[0]], cats[1..k], cats[k + 1..]);
    }
  }

  lemma {:induction false} DropIndexKeepsAll(cats: seq<Category>, index: int, from: int)
    requires !(from <= index < from + |cats|)
    ensures DropIndex(cats, index, from) == cats
    decreases |cats|
  {
    if cats != [] {
      DropIndexKeepsAll(cats[1..], index, from + 1);
      assert [cats[0]] + cats[1..] == cats;
    }
  }

  /** `handleCategoryChange`: one field of one row changes. */
  function ChangeCategory(cats: seq<Category>, index: nat, field: CategoryField, value: string): (r: seq<Category>)
    requires index < |cats|
    ensures |r| == |cats|
    ensures forall j :: 0 <= j < |cats| && j != index ==> r[j] == cats[j]
    ensures r[index].color == cats[index].color
    ensures field == NameField ==> r[index].name == value && r[index].amount == cats[index].amount
    ensures field == AmountField ==> r[index].amount == value && r[index].name == cats[index].name
  {
    cats[index := match field
                  case NameField => cats[index].(name := value)
                  case AmountField => cats[index].(amount := value)]
  }

  /** Adding a row and removing it again restores the list. */
  lemma AddThenRemove(cats: seq<Category>)
    ensures RemoveCategory(AddCategory(cats), |cats|) == cats
  {
    var added := AddCategory(cats);
    assert added[..|cats|] == cats;
  }

  /** `parseFloat(amount) || 0` */
  function Allocated(amount: string, parse: string -> Option<real>): real
  {
    NumberOr(parse(amount), 0.0)
  }

  /** `totalBudget`: the categories' amounts summed in order. */
  function TotalBudget(cats: seq<Category>, parse: string -> Option<real>): real
  {
    if cats == [] then 0.0 else TotalBudget(cats[..|cats| - 1], parse) + Allocated(cats[|cats| - 1].amount, parse)
  }

  // ---------------------------------------------------------------------
  // Creating a project
  // ---------------------------------------------------------------------

  datatype ProjectForm = ProjectForm(name: string, location: string, startDate: string)

  datatype NewProject = NewProject(name: string, location: string, budget: real, startDate: string, status: string)

  datatype NewCategory = NewCategory(projectId: string, name: string, allocatedAmount: real, color: string)

  /** Rejected before any write; the project row could not be written; or
      the project row and its category rows were written. */
  datatype CreateOutcome =
    | Rejected(message: string)
    | ProjectNotWritten(project: NewProject, message: string)
    | Written(project: NewProject, categories: seq<NewCategory>)

  function CategoryRows(projectId: string, cats: seq<Category>, parse: string -> Option<real>): (r: seq<NewCategory>)
    ensures |r| == |cats|
    ensures forall i :: 0 <= i < |cats| ==>
              r[i] == NewCategory(projectId, cats[i].name, Allocated(cats[i].amount, parse), cats[i].color)
  {
    if cats == [] then []
    else CategoryRows(projectId, cats[..|cats| - 1], parse)
           + [NewCategory(projectId, cats[|cats| - 1].name, Allocated(cats[|cats| - 1].amount, parse), cats[|cats| - 1].color)]
  }

  function AllocatedTotal(rows: seq<NewCategory>): real
  {
    if rows == [] then 0.0 else AllocatedTotal(rows[..|rows| - 1]) + rows[|rows| - 1].allocatedAmount
  }

  /** `handleCreateProject`; `inserted` is the store's reply to the project
      insert: the new id, or its error message. */
  function CreateProject(form: ProjectForm, cats: seq<Category>, parse: string -> Option<real>,
                         inserted: Result<string, string>): (r: CreateOutcome)
    ensures r.Rejected? <==> form.name == "" || exists i :: 0 <= i < |cats| && cats[i].name == ""
    ensures !r.Rejected? ==> r.project == NewProject(form.name, form.location, TotalBudget(cats, parse), form.startDate, "active")
    ensures r.Written? <==> !r.Rejected? && inserted.Ok?
    ensures r.Written? ==> r.categories == CategoryRows(inserted.value, cats, parse)
  {
    if form.name == "" then Rejected("Név kötelező!")
    else if exists i :: 0 <= i < |cats| && cats[i].name == "" then Rejected("Minden kategóriának kell név!")
    else
      var project := NewProject(form.name, form.location, TotalBudget(cats, parse), form.startDate, "active");
      match inserted
      case Err(msg) => ProjectNotWritten(project, "Hiba a projekt létrehozásakor: " + msg)
      case Ok(id) => Written(project, CategoryRows(id, cats, parse))
  }

  /** The budget written with the project is the sum of the amounts
      written with its categories. */
  lemma {:induction false} BudgetIsSumOfAllocations(projectId: string, cats: seq<Category>, parse: string -> Option<real>)
    ensures AllocatedTotal(CategoryRows(projectId, cats, parse)) == TotalBudget(cats, parse)
    decreases |cats|
  {
    if cats != [] {
      var rows := CategoryRows(projectId, cats, parse);
      BudgetIsSumOfAllocations(projectId, cats[..|cats| - 1], parse);
      assert rows[..|rows| - 1] == CategoryRows(projectId, cats[..|cats| - 1], parse);
    }
  }

  // ---------------------------------------------------------------------
  // Budget progress on a project card
  // ---------------------------------------------------------------------

  /** The percentage `spent / budget * 100` times the budget is a hundred
      times what was spent, so it passes 100 exactly when the spending
      passes the budget and 90 exactly when it passes nine tenths of it. */
  lemma PercentOfBudget(spent: real, budget: real)
    requires budget > 0.0
    ensures (spent / budget) * 100.0 * budget == spent * 100.0
    ensures (spent / budget) * 100.0 > 100.0 <==> spent > budget
    ensures (spent / budget) * 100.0 > 90.0 <==> spent * 10.0 > budget * 9.0
  {
    var share := spent / budget;
    var progress := share * 100.0;
    assert share * budget == spent;
    assert progress * budget == spent * 100.0 by {
      assert progress * budget == (share * budget) * 100.0;
    }
    AboveIffScaledAbove(progress, 100.0, budget);
    AboveIffScaledAbove(progress, 90.0, budget);
    assert spent * 100.0 > 90.0 * budget <==> spent * 10.0 > budget * 9.0;
  }

  /** Scaling by a positive factor keeps `>`. */
  lemma AboveIffScaledAbove(x: real, bound: real, factor: real)
    requires factor > 0.0
    ensures x > bound <==> x * factor > bound * factor
  {
    assert x * factor - bound * factor == (x - bound) * factor;
    if x > bound {
      assert (x - bound) * factor > 0.0;
    } else {
      assert (bound - x) * factor >= 0.0;
    }
  }

  datatype BudgetView = BudgetView(progress: real, overBudget: bool, nearLimit: bool, barWidth: real)

  function BudgetStatus(spent: real, budget: real): (v: BudgetView)
    // a budget that is not positive shows 0 % and no warning
    ensures budget <= 0.0 ==> v.progress == 0.0 && !v.overBudget && !v.nearLimit
    // otherwise the progress is the spent share of the budget, in percent
    ensures budget > 0.0 ==> v.progress * budget == spent * 100.0
    // otherwise over budget exactly when more than the budget is spent ...
    ensures budget > 0.0 ==> (v.overBudget <==> spent > budget)
    // ... and near the limit exactly when more than 90 % of it is spent
    ensures budget > 0.0 ==> (v.nearLimit <==> spent * 10.0 > budget * 9.0)
    ensures v.overBudget ==> v.nearLimit
    // the bar is never wider than 100 % and otherwise shows the progress
    ensures v.barWidth <= 100.0
    ensures v.progress <= 100.0 ==> v.barWidth == v.progress
    ensures v.progress >= 100.0 ==> v.barWidth == 100.0
  {
    var progress := if budget > 0.0 then PercentOfBudget(spent, budget); (spent / budget) * 100.0 else 0.0;
    BudgetView(progress, progress > 100.0, progress > 90.0, if progress < 100.0 then progress else 100.0)
  }
}
