/** The reports panel: monthly operation reports assembled from projects,
    documents, financial records and operational KPIs, stored as rows of
    `generated_reports` with a PDF path, downloaded under that path's file
    name and marked as e-mailed. */
module Reports {
  import opened Common
  import opened Seqs
  import opened Text
  import opened Audit

  datatype Project = Project(id: string, status: string)

  /** A document; `aiAnalysis` is its `ai_analysis` column, counted when truthy. */
  datatype Document = Document(id: string, aiAnalysis: Value)

  /** A financial record; the amount in integer cents. */
  datatype FinancialRecord = FinancialRecord(kind: string, amount: int)

  /** A row of `operational_kpis`, passed through to the report unchanged. */
  datatype KpiRow = KpiRow(name: string, value: int)

  /** A row of `generated_reports`. */
  datatype ReportRow = ReportRow(id: string, reportType: string, month: nat, year: nat, pdfPath: string, emailSent: bool)

  const Finished: string := "finalizado"

  datatype Summary = Summary(
    totalProjects: nat,
    activeProjects: nat,
    completedProjects: nat,
    totalDocuments: nat,
    aiAnalyzedDocuments: nat)

  datatype Financial = Financial(totalIncome: int, totalExpenses: int, netProfit: int)

  datatype ReportContent = ReportContent(title: string, summary: Summary, financial: Financial, kpis: seq<KpiRow>)

  // ---------------------------------------------------------------- content

  function IsFinished(p: Project): bool { p.status == Finished }

  function IsOpen(p: Project): bool { p.status != Finished }

  function IsAnalysed(d: Document): bool { Truthy(d.aiAnalysis) }

  function IsIncome(r: FinancialRecord): bool { r.kind == "income" }

  function IsExpense(r: FinancialRecord): bool { r.kind == "expense" }

  function IsOtherKind(r: FinancialRecord): bool { r.kind != "income" && r.kind != "expense" }

  function NotIncome(r: FinancialRecord): bool { r.kind != "income" }

  function NotExpense(r: FinancialRecord): bool { r.kind != "expense" }

  function Amount(r: FinancialRecord): int { r.amount }

  /** `generateReportContent`. `monthName` is the locale's "<month> <year>" label. */
  function GenerateReportContent(
    projects: seq<Project>, documents: seq<Document>, records: seq<FinancialRecord>,
    kpis: seq<KpiRow>, monthName: string): (c: ReportContent)
    ensures c.title == "Reporte Mensual de Operaciones - " + monthName
    ensures c.summary.totalProjects == |projects|
    ensures c.summary.activeProjects + c.summary.completedProjects == c.summary.totalProjects
    ensures c.summary.completedProjects == |Keep(projects, IsFinished)|
    ensures c.summary.totalDocuments == |documents|
    ensures c.summary.aiAnalyzedDocuments <= c.summary.totalDocuments
    ensures c.summary.aiAnalyzedDocuments == |Keep(documents, IsAnalysed)|
    ensures c.financial.totalIncome == SumBy(Keep(records, IsIncome), Amount)
    ensures c.financial.totalExpenses == SumBy(Keep(records, IsExpense), Amount)
    ensures c.financial.netProfit == 0
    ensures c.kpis == kpis
  {
    KeepSplit(projects, IsOpen, IsFinished);
    ReportContent(
      "Reporte Mensual de Operaciones - " + monthName,
      Summary(
        |projects|,
        |Keep(projects, IsOpen)|,
        |Keep(projects, IsFinished)|,
        |documents|,
        |Keep(documents, IsAnalysed)|),
      Financial(
        SumBy(Keep(records, IsIncome), Amount),
        SumBy(Keep(records, IsExpense), Amount),
        0),
      kpis)
  }

  /** Income, expenses and the records of any other type partition the records:
      the three sums add up to the sum of every amount. */
  lemma FinancialPartition(records: seq<FinancialRecord>)
    ensures SumBy(Keep(records, IsIncome), Amount) + SumBy(Keep(records, IsExpense), Amount)
          + SumBy(Keep(records, IsOtherKind), Amount) == SumBy(records, Amount)
  {
    var rest := Keep(records, NotIncome);
    SumBySplit(records, Amount, IsIncome, NotIncome);
    SumBySplit(rest, Amount, IsExpense, NotExpense);
    KeepKeep(records, NotIncome, IsExpense, IsExpense);
    KeepKeep(records, NotIncome, NotExpense, IsOtherKind);
  }

  /** A record that is neither income nor expense changes neither total. */
  lemma OtherKindIgnored(projects: seq<Project>, documents: seq<Document>, records: seq<FinancialRecord>,
                         kpis: seq<KpiRow>, monthName: string, r: FinancialRecord)
    requires IsOtherKind(r)
    ensures GenerateReportContent(projects, documents, records + [r], kpis, monthName).financial
         == GenerateReportContent(projects, documents, records, kpis, monthName).financial
  {
    KeepSnoc(records, r, IsIncome);
    KeepSnoc(records, r, IsExpense);
    assert Keep(records + [r], IsIncome) == Keep(records, IsIncome) + [];
    assert Keep(records, IsIncome) + [] == Keep(records, IsIncome);
    assert Keep(records, IsExpense) + [] == Keep(records, IsExpense);
  }

  // ---------------------------------------------------------------- pdf path

  /** `/reports/<year>-<month>-report.pdf`. */
  function FileName(year: nat, month: nat): (f: string)
    ensures '/' !in f && f != ""
  {
    NatToString(year) + "-" + NatToString(month) + "-report.pdf"
  }

  /** The stored path of a generated report, which downloads under its own file name. */
  function PdfPath(year: nat, month: nat): (p: string)
    ensures p == "/reports/" + FileName(year, month)
    ensures DownloadName(p) == FileName(year, month)
  {
    var p := "/reports/" + FileName(year, month);
    assert p == "/reports" + "/" + FileName(year, month);
    LastSegmentAfterSlash("/reports", FileName(year, month));
    p
  }

  /** `s.split('/').pop()`: the text after the last `/`, or all of `s` without one. */
  function LastSegment(s: string): (r: string)
    ensures '/' !in r
    ensures |r| <= |s| && r == s[|s| - |r|..]
    ensures |r| < |s| ==> s[|s| - |r| - 1] == '/'
  {
    if s == [] then []
    else if s[|s| - 1] == '/' then []
    else
      var init := s[..|s| - 1];
      var r := LastSegment(init);
      assert s == init + [s[|s| - 1]];
      r + [s[|s| - 1]]
  }

  /** Text after a `/` that holds no `/` is the last segment. */
  lemma {:induction false} LastSegmentAfterSlash(a: string, b: string)
    requires '/' !in b
    ensures LastSegment(a + "/" + b) == b
  {
    if b != [] {
      var init := b[..|b| - 1];
      assert (a + "/" + b)[..|a + "/" + b| - 1] == a + "/" + init;
      LastSegmentAfterSlash(a, init);
      assert b == init + [b[|b| - 1]];
    } else {
      assert a + "/" + b == a + "/";
    }
  }

  /** The download's file name: the last path segment, or `report.pdf` when empty. */
  function DownloadName(pdfPath: string): (name: string)
    ensures name != ""
    ensures LastSegment(pdfPath) != "" ==> name == LastSegment(pdfPath)
    ensures LastSegment(pdfPath) == "" ==> name == "report.pdf"
  {
    var segment := LastSegment(pdfPath);
    if segment == "" then "report.pdf" else segment
  }

  /** What `downloadReport` does: log `download_report`, then name the file. */
  datatype Download = Download(audit: AuditRequest, fileName: string)

  function DownloadReport(reportId: string, pdfPath: string): (d: Download)
    ensures d.audit == EventOn("download_report", "generated_reports", Some(reportId))
    ensures d.fileName == DownloadName(pdfPath)
  {
    Download(EventOn("download_report", "generated_reports", Some(reportId)), DownloadName(pdfPath))
  }

  // ---------------------------------------------------------------- panel state

  /** The row `generateMonthlyReport` inserts; `generatedBy` is the signed-in user's id. */
  datatype ReportInsert = ReportInsert(reportType: string, month: nat, year: nat, pdfPath: string, generatedBy: Option<string>)

  /** What `generateMonthlyReport` did besides changing the panel. */
  datatype Generation = Generation(audit: AuditRequest, content: Option<ReportContent>, inserted: Option<ReportInsert>)

  /** The four reads a monthly report is built from. */
  datatype Sources = Sources(
    projects: Reply<Project>,
    documents: Reply<Document>,
    records: Reply<FinancialRecord>,
    kpis: Reply<KpiRow>)

  predicate AnyThrew(s: Sources) {
    s.projects.Threw? || s.documents.Threw? || s.records.Threw? || s.kpis.Threw?
  }

  /** The component's state. */
  class ReportsPanel {
    var reports: seq<ReportRow>
    var generatingReport: bool
    var selectedMonth: nat
    var selectedYear: nat
    var emailRecipient: string

    /** The panel opens on the current month and year. */
    constructor (month: nat, year: nat)
      ensures reports == [] && !generatingReport && emailRecipient == ""
      ensures selectedMonth == month && selectedYear == year
    {
      reports := [];
      generatingReport := false;
      selectedMonth := month;
      selectedYear := year;
      emailRecipient := "";
    }

    /** `loadReports`: the rows, or none when `data` is null (a query error included);
        an exception leaves the list as it was. */
    method LoadReports(reply: Reply<ReportRow>)
      modifies this
      ensures reply.Threw? ==> reports == old(reports)
      ensures reply.Rows? ==> reports == reply.rows
      ensures reply.NoData? || reply.Failed? ==> reports == []
      ensures generatingReport == old(generatingReport) && emailRecipient == old(emailRecipient)
      ensures selectedMonth == old(selectedMonth) && selectedYear == old(selectedYear)
    {
      if !reply.Threw? {
        reports := RowsOr(reply);
      }
    }

    /** `generateMonthlyReport`: log, read the four sources, assemble the content,
        insert the report row and reload. A raised exception in the reads or the
        insert (`insert`, which covers the user lookup) skips what follows; a
        returned error is ignored. `generatingReport` ends false on every path. */
    method GenerateMonthlyReport(sources: Sources, monthName: string, userId: Option<string>,
                                 insert: Write, reload: Reply<ReportRow>) returns (g: Generation)
      modifies this
      ensures !generatingReport
      ensures g.audit == EventOn("generate_monthly_report", "generated_reports", None)
      ensures AnyThrew(sources) ==> g.content.None? && g.inserted.None? && reports == old(reports)
      ensures !AnyThrew(sources) ==>
        g.content == Some(GenerateReportContent(RowsOr(sources.projects), RowsOr(sources.documents),
          RowsOr(sources.records), RowsOr(sources.kpis), monthName))
      ensures !AnyThrew(sources) ==>
        g.inserted == Some(ReportInsert("monthly_operations", old(selectedMonth), old(selectedYear),
          PdfPath(old(selectedYear), old(selectedMonth)), userId))
      ensures !AnyThrew(sources) && insert != WriteThrew && !reload.Threw? ==> reports == RowsOr(reload)
      ensures AnyThrew(sources) || insert == WriteThrew || reload.Threw? ==> reports == old(reports)
      ensures emailRecipient == old(emailRecipient)
      ensures selectedMonth == old(selectedMonth) && selectedYear == old(selectedYear)
    {
      generatingReport := true;
      g := Generation(EventOn("generate_monthly_report", "generated_reports", None), None, None);
      if !AnyThrew(sources) {
        var content := GenerateReportContent(RowsOr(sources.projects), RowsOr(sources.documents),
          RowsOr(sources.records), RowsOr(sources.kpis), monthName);
        var row := ReportInsert("monthly_operations", selectedMonth, selectedYear,
          PdfPath(selectedYear, selectedMonth), userId);
        g := g.(content := Some(content), inserted := Some(row));
        if insert != WriteThrew {
          LoadReports(reload);
        }
      }
      generatingReport := false;
    }

    /** `sendReportByEmail`: nothing without a recipient. Otherwise log
        `send_report_email` and mark the report sent (`update`); unless that
        raises, the recipient is cleared and the list reloaded. */
    method SendReportByEmail(reportId: string, update: Write, reload: Reply<ReportRow>)
      returns (audit: Option<AuditRequest>, marked: Option<string>)
      modifies this
      ensures old(emailRecipient) == "" ==>
        audit.None? && marked.None? && reports == old(reports) && emailRecipient == old(emailRecipient)
      ensures old(emailRecipient) != "" ==>
        audit == Some(EventOn("send_report_email", "generated_reports", Some(reportId)))
        && marked == Some(reportId)
      ensures old(emailRecipient) != "" && update != WriteThrew ==>
        emailRecipient == "" && (reload.Threw? ==> reports == old(reports))
        && (!reload.Threw? ==> reports == RowsOr(reload))
      ensures old(emailRecipient) != "" && update == WriteThrew ==>
        emailRecipient == old(emailRecipient) && reports == old(reports)
      ensures generatingReport == old(generatingReport)
      ensures selectedMonth == old(selectedMonth) && selectedYear == old(selectedYear)
    {
      if emailRecipient == "" {
        return None, None;
      }
      audit := Some(EventOn("send_report_email", "generated_reports", Some(reportId)));
      marked := Some(reportId);
      if update != WriteThrew {
        emailRecipient := "";
        LoadReports(reload);
      }
    }

    /** Typing a recipient. */
    method SetEmailRecipient(email: string)
      modifies this
      ensures emailRecipient == email
      ensures reports == old(reports) && generatingReport == old(generatingReport)
      ensures selectedMonth == old(selectedMonth) && selectedYear == old(selectedYear)
    {
      emailRecipient := email;
    }
  }
}
