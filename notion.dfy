/** The Notion backup log: the page properties written for a backup entry,
    the entry derived from a job run, and the weekly report entry. */
module Notion {

  import opened Common
  import opened Ledger

  /** Bytes in a gigabyte, as the service converts them. */
  const Gigabyte: int := 1024 * 1024 * 1024

  const Done: string := "✅ 완료"
  const NeedsCheck: string := "\U{26A0}\U{FE0F} 점검필요"
  const Failure: string := "❌ 실패"

  /** A `NotionBackupEntry`; every optional field may be absent. */
  datatype Entry = Entry(
    date: string,
    week: Option<string>,
    category: seq<string>,
    status: string,
    summary: string,
    systemHealth: Option<string>,
    backupSize: Option<real>,
    dbVerified: Option<bool>,
    securityCheck: Option<bool>,
    slackLogLink: Option<string>,
    reportLink: Option<string>,
    improvement: Option<string>,
    manager: Option<string>)

  /** The Notion property values the service writes. */
  datatype Property =
    | DateValue(start: string)
    | RichText(content: string)
    | StatusValue(name: string)
    | MultiSelect(names: seq<string>)
    | SelectValue(name: string)
    | NumberValue(number: real)
    | Checkbox(checked: bool)
    | UrlValue(url: string)

  /** The `properties` object of a page: the four fixed properties and the
      optional ones, `None` where the key is not set. */
  datatype PageProperties = PageProperties(
    date: Property,
    summary: Property,
    status: Property,
    category: Property,
    week: Option<Property>,
    systemHealth: Option<Property>,
    backupSize: Option<Property>,
    dbVerified: Option<Property>,
    securityCheck: Option<Property>,
    slackLogLink: Option<Property>,
    reportLink: Option<Property>,
    improvement: Option<Property>)

  /** A `pages.create` request: the parent database and the properties. */
  datatype PageRequest = PageRequest(databaseId: string, properties: PageProperties)

  /** What `pages.create` resolves to: the page id and, when present, its url. */
  datatype PageResponse = PageResponse(id: string, url: Option<string>)

  /** What a call resolves to: skipped (with the reason `createBackupEntry`
      gives), the created page, or the caught error's message. */
  datatype Reply =
    | Skipped(reason: Option<string>)
    | Created(pageId: string, url: Option<string>)
    | Rejected(error: string)

  /** The four properties every page gets. */
  function FixedProperties(entry: Entry): PageProperties {
    PageProperties(DateValue(entry.date), RichText(entry.summary), StatusValue(entry.status),
                   MultiSelect(entry.category), None, None, None, None, None, None, None, None)
  }

  /** The properties of the page for `entry`. */
  function EntryProperties(entry: Entry): PageProperties {
    FixedProperties(entry).(
      week := if TruthyText(entry.week) then Some(SelectValue(entry.week.value)) else None,
      systemHealth := if TruthyText(entry.systemHealth) then Some(SelectValue(entry.systemHealth.value)) else None,
      backupSize := if entry.backupSize.Some? then Some(NumberValue(entry.backupSize.value)) else None,
      dbVerified := if entry.dbVerified.Some? then Some(Checkbox(entry.dbVerified.value)) else None,
      securityCheck := if entry.securityCheck.Some? then Some(Checkbox(entry.securityCheck.value)) else None,
      slackLogLink := if TruthyText(entry.slackLogLink) then Some(UrlValue(entry.slackLogLink.value)) else None,
      reportLink := if TruthyText(entry.reportLink) then Some(UrlValue(entry.reportLink.value)) else None,
      improvement := if TruthyText(entry.improvement) then Some(RichText(entry.improvement.value)) else None)
  }

  /** Which properties a page gets: the fixed four always; a text field
      only when non-empty; a number or flag whenever it is given, so `0` and
      `false` are kept. */
  lemma EntryPropertiesSelection(entry: Entry)
    ensures var p := EntryProperties(entry);
      && p.date == DateValue(entry.date)
      && p.summary == RichText(entry.summary)
      && p.status == StatusValue(entry.status)
      && p.category == MultiSelect(entry.category)
      && (p.week.Some? <==> TruthyText(entry.week))
      && (p.systemHealth.Some? <==> TruthyText(entry.systemHealth))
      && (p.slackLogLink.Some? <==> TruthyText(entry.slackLogLink))
      && (p.reportLink.Some? <==> TruthyText(entry.reportLink))
      && (p.improvement.Some? <==> TruthyText(entry.improvement))
      && (p.backupSize.Some? <==> entry.backupSize.Some?)
      && (p.dbVerified.Some? <==> entry.dbVerified.Some?)
      && (p.securityCheck.Some? <==> entry.securityCheck.Some?)
      && (entry.backupSize.Some? ==> p.backupSize == Some(NumberValue(entry.backupSize.value)))
      && (entry.dbVerified.Some? ==> p.dbVerified == Some(Checkbox(entry.dbVerified.value)))
      && (entry.securityCheck.Some? ==> p.securityCheck == Some(Checkbox(entry.securityCheck.value)))
      && (TruthyText(entry.week) ==> p.week == Some(SelectValue(entry.week.value)))
      && (TruthyText(entry.improvement) ==> p.improvement == Some(RichText(entry.improvement.value)))
  {
  }

  /** `manager` never reaches the page: entries that differ only in it get
      the same properties. */
  lemma EntryIgnoresManager(entry: Entry, manager: Option<string>)
    ensures EntryProperties(entry.(manager := manager)) == EntryProperties(entry)
  {
  }

  /** The page request reply: `create` is what `pages.create` gives. */
  function CreateReply(create: Result<PageResponse>): (r: Reply)
    ensures create.Ok? ==> r == Created(create.value.id, create.value.url)
    ensures create.Err? ==> r == Rejected(create.error.message)
  {
    match create
    case Ok(resp) => Created(resp.id, resp.url)
    case Err(e) => Rejected(e.message)
  }

  /** The own keys of the category lookup table and their labels. */
  const CategoryTable: map<string, string> :=
    map["EBS" := "AWS Snapshot", "RDS" := "RDS Dump", "S3" := "S3 Sync", "LOCAL" := "Local HDD Backup"]

  /** `mapResourceTypeToCategory`: the label of a known type, any other
      type unchanged. */
  function Category(resourceType: string): (r: string)
    ensures resourceType in CategoryTable ==> r == CategoryTable[resourceType]
    ensures resourceType !in CategoryTable ==> r == resourceType
  {
    if resourceType in CategoryTable then CategoryTable[resourceType] else resourceType
  }

  /** The category is one of the four labels or the type itself, and only
      a known type is relabelled. */
  lemma CategoryRange(resourceType: string)
    ensures Category(resourceType) in CategoryTable.Values || Category(resourceType) == resourceType
    ensures Category(resourceType) != resourceType ==> resourceType in {"EBS", "RDS", "S3", "LOCAL"}
  {
    if resourceType in CategoryTable {
      assert CategoryTable[resourceType] in CategoryTable.Values;
    }
  }

  /** The names every plain object literal inherits from `Object.prototype`;
      looking one of them up yields a function (or, for `__proto__`, the
      prototype object), which is truthy. */
  const PrototypeMembers: set<string> := {"constructor", "__proto__", "__defineGetter__", "__defineSetter__",
                                          "__lookupGetter__", "__lookupSetter__", "hasOwnProperty",
                                          "isPrototypeOf", "propertyIsEnumerable", "toLocaleString",
                                          "toString", "valueOf"}

  /** What `mapping[resourceType] || resourceType` yields on the object literal. */
  datatype Lookup = Label(text: string) | Inherited(member: string)

  /** The lookup as the service writes it: an inherited member name finds the
      inherited value instead of falling back to the type. */
  function CategoryAsWritten(resourceType: string): Lookup {
    if resourceType in CategoryTable then Label(CategoryTable[resourceType])
    else if resourceType in PrototypeMembers then Inherited(resourceType)
    else Label(resourceType)
  }

  /** A job whose `resourceType` is `toString` gets a function, not a
      category name, while every other type gets what `Category` gives. */
  lemma CategoryAsWrittenInherits(resourceType: string)
    ensures CategoryAsWritten("toString") == Inherited("toString")
    ensures resourceType !in PrototypeMembers ==> CategoryAsWritten(resourceType) == Label(Category(resourceType))
  {
  }

  /** The backup size `logJobRun` reports: bytes in gigabytes rounded to
      two decimals (to the nearest hundredth, halves up). */
  function Gb(bytes: int): (r: real)
    ensures var h := r * 100.0;
      h == h.Floor as real
      && 2 * Gigabyte * h.Floor - Gigabyte <= 200 * bytes < 2 * Gigabyte * h.Floor + Gigabyte
  {
    var hundredths := RoundDiv(bytes * 100, Gigabyte);
    assert (hundredths as real / 100.0) * 100.0 == hundredths as real;
    hundredths as real / 100.0
  }

  /** `totalBytes` when truthy, else `copiedBytes` when truthy, else none. */
  function BackupSizeGb(metrics: Option<Metrics>): (r: Option<real>)
    ensures metrics.None? ==> r.None?
    ensures metrics.Some? && TruthyNumber(metrics.value.totalBytes) ==> r == Some(Gb(metrics.value.totalBytes.value))
    ensures metrics.Some? && !TruthyNumber(metrics.value.totalBytes) && TruthyNumber(metrics.value.copiedBytes) ==>
      r == Some(Gb(metrics.value.copiedBytes.value))
    ensures metrics.Some? && !TruthyNumber(metrics.value.totalBytes) && !TruthyNumber(metrics.value.copiedBytes) ==>
      r.None?
  {
    match metrics
    case None => None
    case Some(m) =>
      if TruthyNumber(m.totalBytes) then Some(Gb(m.totalBytes.value))
      else if TruthyNumber(m.copiedBytes) then Some(Gb(m.copiedBytes.value))
      else None
  }

  /** The summary line of a run's entry. */
  function RunSummary(run: JobRun, job: Job): string {
    var summary := job.resourceType + " 백업: " + job.resourceId;
    if run.status == Failed && TruthyText(run.error) then summary + "\n에러: " + run.error.value else summary
  }

  /** The entry `logJobRun` writes for a run; `isoOf` renders a timestamp
      as ISO text. */
  function RunEntry(run: JobRun, job: Job, isoOf: int -> string): Entry {
    var success := run.status == Success;
    Entry(isoOf(run.startedAt), None, [Category(job.resourceType)],
          if success then Done else Failure,
          RunSummary(run, job),
          Some(if success then "정상" else "이상"),
          BackupSizeGb(run.metrics), Some(success), None, None, None, None, None)
  }

  /** A successful run is logged as done, verified and healthy, any other as
      failed, unverified and faulty; the summary names the type and resource
      and adds the error only for a failed run with an error. */
  lemma RunEntryDerivation(run: JobRun, job: Job, isoOf: int -> string)
    ensures var e := RunEntry(run, job, isoOf);
      && (run.status == Success ==> e.status == Done && e.dbVerified == Some(true) && e.systemHealth == Some("정상"))
      && (run.status != Success ==> e.status == Failure && e.dbVerified == Some(false) && e.systemHealth == Some("이상"))
      && e.category == [Category(job.resourceType)]
      && job.resourceType + " 백업: " + job.resourceId <= e.summary
      && (e.summary == job.resourceType + " 백업: " + job.resourceId <==> !(run.status == Failed && TruthyText(run.error)))
  {
    var base := job.resourceType + " 백업: " + job.resourceId;
    if run.status == Failed && TruthyText(run.error) {
      assert |RunEntry(run, job, isoOf).summary| > |base|;
    }
  }

  /** The weekly report figures the service reads. */
  datatype WeeklyStats = WeeklyStats(totalRuns: int, successRate: int)

  /** The entry `createWeeklyReport` writes; `nowIso` is the current time. */
  function WeeklyEntry(weekNumber: int, stats: WeeklyStats, nowIso: string): Entry {
    var good := stats.successRate >= 90;
    Entry(nowIso, Some(IntToString(weekNumber) + "주차"), ["보안 점검"],
          if good then Done else NeedsCheck,
          "주간 백업 리포트\n총 " + IntToString(stats.totalRuns) + "건 실행, 성공률 " + IntToString(stats.successRate) + "%",
          Some(if good then "정상" else "주의"),
          None, None, None, None, None, None, None)
  }

  /** A rate of at least 90 is done and healthy, anything lower needs a
      check; the page gets the week but no size or flags. */
  lemma WeeklyEntryThreshold(weekNumber: int, stats: WeeklyStats, nowIso: string)
    ensures var e := WeeklyEntry(weekNumber, stats, nowIso);
      && (e.status == Done <==> stats.successRate >= 90)
      && (e.systemHealth == Some("정상") <==> stats.successRate >= 90)
      && (e.status == NeedsCheck <==> stats.successRate < 90)
      && var p := EntryProperties(e);
         && p.week == Some(SelectValue(IntToString(weekNumber) + "주차"))
         && p.backupSize.None? && p.dbVerified.None?
  {
    var w := IntToString(weekNumber) + "주차";
    assert w != "";
  }

  class NotionService {
    /** `client !== null`. */
    const client: bool
    const databaseId: Option<string>
    /** Every request handed to `pages.create`, in order. */
    var pages: seq<PageRequest>

    /** `notionToken` is `NOTION_TOKEN`, `notionDatabaseId` is `NOTION_DATABASE_ID`. */
    constructor (notionToken: Option<string>, notionDatabaseId: Option<string>)
      ensures IsConfigured() <==> TruthyText(notionToken) && TruthyText(notionDatabaseId)
      ensures IsConfigured() ==> databaseId == notionDatabaseId
      ensures pages == []
    {
      if TruthyText(notionToken) && TruthyText(notionDatabaseId) {
        client, databaseId := true, notionDatabaseId;
      } else {
        client, databaseId := false, None;
      }
      pages := [];
    }

    predicate IsConfigured()
    {
      client && databaseId.Some?
    }

    /** `createBackupEntry`: the fixed properties, then each optional one
        added in turn. */
    method CreateBackupEntry(entry: Entry, create: Result<PageResponse>) returns (r: Reply)
      modifies this
      ensures !IsConfigured() ==> r == Skipped(Some("Notion not configured")) && pages == old(pages)
      ensures IsConfigured() ==>
        && pages == old(pages) + [PageRequest(databaseId.value, EntryProperties(entry))]
        && r == CreateReply(create)
    {
      if !IsConfigured() {
        return Skipped(Some("Notion not configured"));
      }
      var properties := FixedProperties(entry);
      if TruthyText(entry.week) {
        properties := properties.(week := Some(SelectValue(entry.week.value)));
      }
      if TruthyText(entry.systemHealth) {
        properties := properties.(systemHealth := Some(SelectValue(entry.systemHealth.value)));
      }
      if entry.backupSize.Some? {
        properties := properties.(backupSize := Some(NumberValue(entry.backupSize.value)));
      }
      if entry.dbVerified.Some? {
        properties := properties.(dbVerified := Some(Checkbox(entry.dbVerified.value)));
      }
      if entry.securityCheck.Some? {
        properties := properties.(securityCheck := Some(Checkbox(entry.securityCheck.value)));
      }
      if TruthyText(entry.slackLogLink) {
        properties := properties.(slackLogLink := Some(UrlValue(entry.slackLogLink.value)));
      }
      if TruthyText(entry.reportLink) {
        properties := properties.(reportLink := Some(UrlValue(entry.reportLink.value)));
      }
      if TruthyText(entry.improvement) {
        properties := properties.(improvement := Some(RichText(entry.improvement.value)));
      }
      pages := pages + [PageRequest(databaseId.value, properties)];
      r := CreateReply(create);
    }

    /** `logJobRun`: derive the entry (appending the error to the summary
        of a failed run) and create it. */
    method LogJobRun(run: JobRun, job: Job, isoOf: int -> string, create: Result<PageResponse>)
      returns (r: Reply)
      modifies this
      ensures !IsConfigured() ==> r == Skipped(None) && pages == old(pages)
      ensures IsConfigured() ==>
        && pages == old(pages) + [PageRequest(databaseId.value, EntryProperties(RunEntry(run, job, isoOf)))]
        && r == CreateReply(create)
    {
      if !IsConfigured() {
        return Skipped(None);
      }
      var category := Category(job.resourceType);
      var status := if run.status == Success then Done else Failure;
      var summary := job.resourceType + " 백업: " + job.resourceId;
      if run.status == Failed && TruthyText(run.error) {
        summary := summary + "\n에러: " + run.error.value;
      }
      var backupSizeGb := BackupSizeGb(run.metrics);
      var entry := Entry(isoOf(run.startedAt), None, [category], status, summary,
                         Some(if run.status == Success then "정상" else "이상"),
                         backupSizeGb, Some(run.status == Success), None, None, None, None, None);
      r := CreateBackupEntry(entry, create);
    }

    /** `createWeeklyReport`. */
    method CreateWeeklyReport(weekNumber: int, stats: WeeklyStats, nowIso: string, create: Result<PageResponse>)
      returns (r: Reply)
      modifies this
      ensures !IsConfigured() ==> r == Skipped(None) && pages == old(pages)
      ensures IsConfigured() ==>
        && pages == old(pages) + [PageRequest(databaseId.value, EntryProperties(WeeklyEntry(weekNumber, stats, nowIso)))]
        && r == CreateReply(create)
    {
      if !IsConfigured() {
        return Skipped(None);
      }
      r := CreateBackupEntry(WeeklyEntry(weekNumber, stats, nowIso), create);
    }
  }
}
