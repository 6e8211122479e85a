/** The storage side of the ledger: the directory of active daily documents,
    the archive directory, the permanent backup directory and the two
    database tables, each abstracted as a map (or, for the append-only hit
    table, a sequence). Pure functions give the effect of log_scanner_hit,
    archive_daily_logs and create_permanent_backup on that state; the class
    Ledger performs the same steps in place. */
module Store {
  import opened Common
  import opened Classifier
  import opened DailyLedger

  /** A backup file's name: its date and the whole seconds of the clock when
      it was made, so two backups of one date in the same second share a name. */
  datatype BackupName = BackupName(date: int, epochSeconds: int)

  /** A row of the daily_summaries table; the ticker list is stored as its length. */
  datatype SummaryRow = SummaryRow(
    totalHits: nat,
    uniqueTickers: nat,
    triggerTypes: TriggerCounts,
    priceRanges: PriceRanges,
    performanceMetrics: Metrics)

  /** A row of the scanner_hits table: a hit and the date of its timestamp. */
  datatype HitRow = HitRow(date: int, hit: Hit)

  /** Everything the ledger keeps on disk. `archiveOther` holds the names in
      the archive directory that do not parse as scanner_hits_<date>.json. */
  datatype Disk = Disk(
    active: map<int, Document>,
    archive: map<int, Document>,
    archiveOther: set<string>,
    backups: map<BackupName, Document>,
    summaries: map<int, SummaryRow>,
    hitRows: seq<HitRow>)

  const EmptyDisk: Disk := Disk(map[], map[], {}, map[], map[], [])

  /** Every archived document has a backup copy with the same contents. */
  ghost predicate ArchivesBackedUp(archive: map<int, Document>, backups: map<BackupName, Document>) {
    forall date :: date in archive ==>
      exists stamp :: BackupName(date, stamp) in backups && backups[BackupName(date, stamp)] == archive[date]
  }

  /** What the ledger's own operations keep true of the disk: every stored
      document was built by appends, lives under its own date, and every
      archive has been backed up. */
  ghost predicate Consistent(d: Disk) {
    && (forall date :: date in d.active ==> WellFormed(d.active[date]) && d.active[date].logMetadata.date == date)
    && (forall date :: date in d.archive ==> WellFormed(d.archive[date]) && d.archive[date].logMetadata.date == date)
    && ArchivesBackedUp(d.archive, d.backups)
  }

  // ---------------------------------------------------------------------------
  // log_scanner_hit

  /** The document log_scanner_hit loads for today, or the fresh one it builds. */
  function TodayDocument(d: Disk, now: Clock): Document {
    if now.day in d.active then d.active[now.day] else FreshDocument(now)
  }

  /** On a consistent disk, the document log_scanner_hit works on (loaded or
      fresh) is well formed and carries today's date. */
  lemma TodayDocumentWellFormed(d: Disk, now: Clock)
    requires Consistent(d)
    ensures WellFormed(TodayDocument(d, now)) && TodayDocument(d, now).logMetadata.date == now.day
    ensures now.day !in d.active ==> TodayDocument(d, now).scannerHits == []
  {
    FreshDocumentWellFormed(now);
  }

  /** The hit log_scanner_hit builds for today: the next id in today's document. */
  function NextHit(d: Disk, ticker: string, data: TriggerData, now: Clock): (r: Option<Hit>)
    ensures r.None? <==> data.changePct.None? || data.relVolume.None?
    ensures r.Some? ==> r.value.hitId == |TodayDocument(d, now).scannerHits| + 1
  {
    MakeHit(|TodayDocument(d, now).scannerHits| + 1, ticker, data, now)
  }

  /** The disk after today's document gained `hit` and the hit table a row:
      nothing else changes. */
  function WithHit(d: Disk, now: Clock, hit: Hit): (r: Disk)
    ensures r.active.Keys == d.active.Keys + {now.day}
    ensures forall date :: date in d.active && date != now.day ==> r.active[date] == d.active[date]
    ensures r.active[now.day] == Appended(TodayDocument(d, now), hit)
    ensures r.hitRows == d.hitRows + [HitRow(now.day, hit)]
    ensures r.archive == d.archive && r.archiveOther == d.archiveOther
    ensures r.backups == d.backups && r.summaries == d.summaries
    ensures Consistent(d) && hit.hitId == |TodayDocument(d, now).scannerHits| + 1 ==> Consistent(r)
  {
    var r := d.(active := d.active[now.day := Appended(TodayDocument(d, now), hit)],
                hitRows := d.hitRows + [HitRow(now.day, hit)]);
    WithHitKeepsConsistent(d, now, hit);
    r
  }

  lemma WithHitKeepsConsistent(d: Disk, now: Clock, hit: Hit)
    ensures Consistent(d) && hit.hitId == |TodayDocument(d, now).scannerHits| + 1 ==>
      Consistent(d.(active := d.active[now.day := Appended(TodayDocument(d, now), hit)],
                    hitRows := d.hitRows + [HitRow(now.day, hit)]))
  {
    if Consistent(d) {
      TodayDocumentWellFormed(d, now);
    }
  }

  /** The disk after log_scanner_hit; None when it returns False, in which case
      nothing was written. */
  function Logged(d: Disk, ticker: string, data: TriggerData, now: Clock): (r: Option<Disk>)
    ensures r.None? <==> data.changePct.None? || data.relVolume.None?
    ensures r.Some? ==> r.value == WithHit(d, now, NextHit(d, ticker, data, now).value)
    ensures r.Some? && Consistent(d) ==> Consistent(r.value)
  {
    match NextHit(d, ticker, data, now)
    case None => None
    case Some(hit) => Some(WithHit(d, now, hit))
  }

  /** The first hit of a day opens a fresh document whose only hit has id 1
      and whose summary counts it. */
  lemma FirstHitOfDay(d: Disk, now: Clock, hit: Hit)
    requires now.day !in d.active && hit.hitId == 1
    ensures var doc := WithHit(d, now, hit).active[now.day];
      doc.logMetadata == FreshMetadata(now) && doc.scannerHits == [hit]
      && doc.dailySummary.totalHits == 1 && WellFormed(doc)
  {
    FreshDocumentWellFormed(now);
  }

  // ---------------------------------------------------------------------------
  // archive_daily_logs and create_permanent_backup

  /** Microseconds since the day-number epoch for a date and time of day
      (the literal is MicrosPerDay, written out to keep the arithmetic linear). */
  function Instant(day: int, time: TimeOfDay): int {
    day * 86_400_000_000 + time
  }

  /** The prune test of archive_daily_logs: the archive's date at midnight is
      earlier than now minus 30 days, time of day kept. */
  predicate Expired(date: int, now: Clock) {
    Instant(date, 0) < Instant(now.day - 30, now.time)
  }

  /** In whole days: an archive is pruned when dated more than 30 days back,
      and one dated exactly 30 days back is pruned except at midnight sharp. */
  lemma ExpiredByDays(date: int, now: Clock)
    ensures Expired(date, now) <==> date < now.day - 30 || (date == now.day - 30 && now.time > 0)
  {
  }

  /** Expiry is downward closed: an archive older than an expired one has
      expired too, and yesterday's and today's never expire. */
  lemma ExpiredMonotone(older: int, date: int, now: Clock)
    requires older <= date && Expired(date, now)
    ensures Expired(older, now)
    ensures date < now.day - 1
  {
    ExpiredByDays(date, now);
    ExpiredByDays(older, now);
  }

  /** The listing loop's effect: every dated archive that has expired is removed. */
  function Prune(archive: map<int, Document>, now: Clock): (r: map<int, Document>)
    ensures forall date :: date in r <==> date in archive && !Expired(date, now)
    ensures forall date :: date in r ==> r[date] == archive[date]
    ensures now.day - 1 in archive ==> now.day - 1 in r
  {
    ExpiredByDays(now.day - 1, now);
    map date | date in archive && !Expired(date, now) :: archive[date]
  }

  /** save_daily_summary_to_db: INSERT OR REPLACE keyed by date. */
  function SaveSummary(summaries: map<int, SummaryRow>, date: int, s: Summary): (r: map<int, SummaryRow>)
    ensures r.Keys == summaries.Keys + {date}
    ensures r[date].totalHits == s.totalHits && r[date].uniqueTickers == |s.uniqueTickers|
    ensures r[date].triggerTypes == s.triggerTypes && r[date].priceRanges == s.priceRanges
    ensures r[date].performanceMetrics == s.performanceMetrics
    ensures forall other :: other in summaries && other != date ==> r[other] == summaries[other]
  {
    summaries[date := SummaryRow(s.totalHits, |s.uniqueTickers|, s.triggerTypes, s.priceRanges, s.performanceMetrics)]
  }

  /** create_permanent_backup: nothing without an archive for `date`;
      otherwise a copy under a time-stamped name and the summary upserted. */
  function Backup(d: Disk, date: int, stamp: int): (r: Disk)
    ensures date !in d.archive ==> r == d
    ensures date in d.archive ==>
      && r.backups == d.backups[BackupName(date, stamp) := d.archive[date]]
      && r.summaries == SaveSummary(d.summaries, date, d.archive[date].dailySummary)
      && r.active == d.active && r.archive == d.archive && r.archiveOther == d.archiveOther
      && r.hitRows == d.hitRows
  {
    if date !in d.archive then d
    else d.(backups := d.backups[BackupName(date, stamp) := d.archive[date]],
            summaries := SaveSummary(d.summaries, date, d.archive[date].dailySummary))
  }

  /** archive_daily_logs at `now`, with `stamp` the backup's time.time():
      move yesterday's document to the archive, prune, back yesterday up. */
  function Rollover(d: Disk, now: Clock, stamp: int): (r: Disk)
    // the move: yesterday leaves the active directory and arrives verbatim in the archive
    ensures r.active == d.active - {now.day - 1}
    ensures now.day - 1 in d.active ==> now.day - 1 in r.archive && r.archive[now.day - 1] == d.active[now.day - 1]
    // the prune: nothing expired remains, everything else stays, yesterday is never pruned
    ensures forall date :: date in r.archive ==> !Expired(date, now)
    ensures forall date :: date in r.archive && date != now.day - 1 ==> date in d.archive && r.archive[date] == d.archive[date]
    ensures forall date :: date in d.archive && !Expired(date, now) ==> date in r.archive
    ensures now.day - 1 in r.archive <==> now.day - 1 in d.active || now.day - 1 in d.archive
    ensures now.day - 1 !in d.active && now.day - 1 in d.archive ==> r.archive[now.day - 1] == d.archive[now.day - 1]
    ensures r.archiveOther == d.archiveOther
    // a backup and an upsert exactly when yesterday is archived
    ensures now.day - 1 in r.archive ==>
      r.backups == d.backups[BackupName(now.day - 1, stamp) := r.archive[now.day - 1]] &&
      r.summaries == SaveSummary(d.summaries, now.day - 1, r.archive[now.day - 1].dailySummary)
    ensures now.day - 1 !in r.archive ==> r.backups == d.backups && r.summaries == d.summaries
    ensures r.hitRows == d.hitRows
  {
    var yesterday := now.day - 1;
    var moved :=
      if yesterday in d.active
      then d.(active := d.active - {yesterday}, archive := d.archive[yesterday := d.active[yesterday]])
      else d;
    var pruned := moved.(archive := Prune(moved.archive, now));
    Backup(pruned, yesterday, stamp)
  }

  /** Rollover keeps the disk consistent: in particular every archive, also
      the one just moved, has a backup. */
  lemma RolloverKeepsConsistent(d: Disk, now: Clock, stamp: int)
    requires Consistent(d)
    ensures Consistent(Rollover(d, now, stamp))
  {
    var r := Rollover(d, now, stamp);
    var y := now.day - 1;
    forall date | date in r.archive
      ensures WellFormed(r.archive[date]) && r.archive[date].logMetadata.date == date
    {
      if date == y && y in d.active {
        assert r.archive[date] == d.active[date];
      } else {
        assert r.archive[date] == d.archive[date];
      }
    }
    forall date | date in r.archive
      ensures exists s :: BackupName(date, s) in r.backups && r.backups[BackupName(date, s)] == r.archive[date]
    {
      if date == y {
        assert r.backups[BackupName(date, stamp)] == r.archive[date];
      } else {
        var s :| BackupName(date, s) in d.backups && d.backups[BackupName(date, s)] == d.archive[date];
        assert r.backups[BackupName(date, s)] == r.archive[date];
      }
    }
  }

  /** Pruning never deletes an archive that has no backup: every document the
      rollover removed from the archive is still in the backup directory. */
  lemma PrunedArchivesAreBackedUp(d: Disk, now: Clock, stamp: int)
    requires Consistent(d)
    ensures var r := Rollover(d, now, stamp);
      forall date :: date in d.archive && date !in r.archive ==>
        exists s :: BackupName(date, s) in r.backups && r.backups[BackupName(date, s)] == d.archive[date]
  {
    var r := Rollover(d, now, stamp);
    forall date | date in d.archive && date !in r.archive
      ensures exists s :: BackupName(date, s) in r.backups && r.backups[BackupName(date, s)] == d.archive[date]
    {
      var s :| BackupName(date, s) in d.backups && d.backups[BackupName(date, s)] == d.archive[date];
      assert date != now.day - 1;
      assert r.backups[BackupName(date, s)] == d.archive[date];
    }
  }

  /** Running rollover a second time at the same moment changes neither the
      directories nor the summary table; it only adds one more backup copy
      (or rewrites the same one if the stamp repeats). */
  lemma RolloverAgain(d: Disk, now: Clock, s1: int, s2: int)
    ensures var a := Rollover(d, now, s1);
      var b := Rollover(a, now, s2);
      && b.active == a.active && b.archive == a.archive && b.archiveOther == a.archiveOther
      && b.summaries == a.summaries && b.hitRows == a.hitRows
      && (now.day - 1 in a.archive ==> b.backups == a.backups[BackupName(now.day - 1, s2) := a.archive[now.day - 1]])
      && (now.day - 1 !in a.archive ==> b.backups == a.backups)
  {
    var a := Rollover(d, now, s1);
    var b := Rollover(a, now, s2);
    var y := now.day - 1;
    assert b.archive == a.archive;
    if y in a.archive {
      assert b.summaries == a.summaries;
    }
  }

  // ---------------------------------------------------------------------------
  // get_daily_summary

  datatype ReportDetails = ReportDetails(
    triggerTypes: TriggerCounts,
    priceRanges: PriceRanges,
    performanceMetrics: Metrics,
    logMetadata: Metadata)

  /** The dictionary get_daily_summary returns: the summary with the ticker
      list replaced by its length, plus the hits; the zeroed form has no details. */
  datatype DayReport = DayReport(
    date: int,
    totalHits: nat,
    uniqueTickers: nat,
    scannerHits: seq<Hit>,
    details: Option<ReportDetails>)

  function ReportOf(date: int, doc: Document): DayReport {
    var s := doc.dailySummary;
    DayReport(date, s.totalHits, |s.uniqueTickers|, doc.scannerHits,
              Some(ReportDetails(s.triggerTypes, s.priceRanges, s.performanceMetrics, doc.logMetadata)))
  }

  /** A report of a well-formed document is complete and agrees with its
      hits: the total is their number, unique_tickers the number of distinct
      tickers among them, and ids run 1..n. */
  lemma ReportOfWellFormed(date: int, doc: Document)
    requires WellFormed(doc)
    ensures var r := ReportOf(date, doc);
      && r.date == date && r.details.Some? && r.scannerHits == doc.scannerHits
      && r.totalHits == |r.scannerHits|
      && r.uniqueTickers == |Elems(Tickers(r.scannerHits))| <= r.totalHits
      && SequentialIds(r.scannerHits)
  {
    SummarizeTotal(doc.scannerHits);
    SummarizeTickers(doc.scannerHits);
    DistinctElems(doc.dailySummary.uniqueTickers);
  }

  /** get_daily_summary: the active document first, then the archive, and a
      zeroed report (not an error) when neither exists. No date means today. */
  function GetDailySummary(d: Disk, date: Option<int>, now: Clock): (r: DayReport)
    ensures r.date == date.GetOr(now.day)
    ensures r.date in d.active ==> r == ReportOf(r.date, d.active[r.date])
    ensures r.date !in d.active && r.date in d.archive ==> r == ReportOf(r.date, d.archive[r.date])
    ensures r.details.None? <==> r.date !in d.active && r.date !in d.archive
    ensures r.details.None? ==> r.totalHits == 0 && r.uniqueTickers == 0 && r.scannerHits == []
  {
    var day := date.GetOr(now.day);
    if day in d.active then ReportOf(day, d.active[day])
    else if day in d.archive then ReportOf(day, d.archive[day])
    else DayReport(day, 0, 0, [], None)
  }

  /** On a consistent disk every report agrees with its own hits. */
  lemma ReportIsConsistent(d: Disk, date: Option<int>, now: Clock)
    requires Consistent(d)
    ensures var r := GetDailySummary(d, date, now);
      r.totalHits == |r.scannerHits| && r.uniqueTickers <= r.totalHits && SequentialIds(r.scannerHits)
  {
    var day := date.GetOr(now.day);
    if day in d.active {
      WellFormedSummary(d.active[day]);
    } else if day in d.archive {
      WellFormedSummary(d.archive[day]);
    }
  }

  /** Today's report shows today's document, unless today only exists in
      the archive. */
  lemma TodayReport(d: Disk, now: Clock)
    requires now.day in d.active || now.day !in d.archive
    ensures GetDailySummary(d, None, now).scannerHits == TodayDocument(d, now).scannerHits
    ensures GetDailySummary(d, None, now).totalHits == TodayDocument(d, now).dailySummary.totalHits
  {
  }

  /** Reading back after a successful append: today's report ends with the
      new hit and counts it. */
  lemma WithHitThenRead(d: Disk, now: Clock, hit: Hit)
    requires WellFormed(TodayDocument(d, now)) && hit.hitId == |TodayDocument(d, now).scannerHits| + 1
    requires now.day in d.active || now.day !in d.archive
    ensures var before := GetDailySummary(d, None, now);
      var after := GetDailySummary(WithHit(d, now, hit), None, now);
      && after.scannerHits == before.scannerHits + [hit]
      && after.totalHits == before.totalHits + 1
      && after.totalHits == |after.scannerHits|
  {
    var doc := TodayDocument(d, now);
    WellFormedSummary(Appended(doc, hit));
    TodayReport(d, now);
    var r := WithHit(d, now, hit);
    assert TodayDocument(r, now) == Appended(doc, hit);
    TodayReport(r, now);
  }

  /** Rollover does not change what a reader sees for yesterday. */
  lemma RolloverKeepsYesterdaysReport(d: Disk, now: Clock, stamp: int)
    ensures GetDailySummary(Rollover(d, now, stamp), Some(now.day - 1), now) == GetDailySummary(d, Some(now.day - 1), now)
  {
  }

  // ---------------------------------------------------------------------------
  // The ledger on disk, updated in place

  class Ledger {
    var active: map<int, Document>
    var archive: map<int, Document>
    var archiveOther: set<string>
    var backups: map<BackupName, Document>
    var summaries: map<int, SummaryRow>
    var hitRows: seq<HitRow>

    function State(): Disk
      reads this
    {
      Disk(active, archive, archiveOther, backups, summaries, hitRows)
    }

    ghost predicate Valid()
      reads this
    {
      Consistent(State())
    }

    /** Empty directories and tables, apart from foreign files that may sit
        in the archive directory. */
    constructor (foreign: set<string>)
      ensures State() == EmptyDisk.(archiveOther := foreign)
      ensures Valid()
    {
      active, archive, archiveOther := map[], map[], foreign;
      backups, summaries, hitRows := map[], map[], [];
    }

    /** log_scanner_hit(ticker, trigger_data): load or create today's document,
        build the hit, append it, update the summary, write the document back
        and insert the hit row. Returns False, writing nothing, when building
        the hit raises. */
    method LogScannerHit(ticker: string, data: TriggerData, now: Clock) returns (ok: bool)
      modifies this
      ensures ok == Logged(old(State()), ticker, data, now).Some?
      ensures State() == if ok then Logged(old(State()), ticker, data, now).value else old(State())
      ensures old(Valid()) ==> Valid()
    {
      var logs := LoadToday(now);
      var hit := MakeHit(|logs.scannerHits| + 1, ticker, data, now);
      assert hit == NextHit(State(), ticker, data, now);
      if hit.None? {
        return false;
      }
      WriteHit(logs, hit.value, now);
      ok := true;
    }

    /** json.load of today's file, or the fresh document literal. */
    method LoadToday(now: Clock) returns (logs: DailyLog)
      ensures fresh(logs)
      ensures logs.Contents() == TodayDocument(State(), now)
      ensures |logs.scannerHits| == |TodayDocument(State(), now).scannerHits|
    {
      if now.day in active {
        logs := new DailyLog.Load(active[now.day]);
      } else {
        logs := new DailyLog.Fresh(now);
      }
    }

    /** Append the hit, update the summary, write the file back and insert
        the hit row. */
    method WriteHit(logs: DailyLog, hit: Hit, now: Clock)
      requires logs.Contents() == TodayDocument(State(), now)
      modifies this, logs
      ensures State() == WithHit(old(State()), now, hit)
    {
      ghost var before := logs.Contents();
      logs.AppendHit(hit);
      logs.UpdateDailySummary(hit);
      var doc := logs.Contents();
      assert doc == Appended(before, hit);
      active := active[now.day := doc];
      hitRows := hitRows + [HitRow(now.day, hit)];
    }

    /** The cleanup loop over os.listdir(archive_dir): dated archives that
        have expired are removed, one name at a time. */
    method PruneArchive(now: Clock)
      modifies this
      ensures State() == old(State()).(archive := Prune(old(archive), now))
    {
      var names := archive.Keys;
      ghost var before := archive;
      while names != {}
        invariant names <= before.Keys
        invariant forall date :: date in archive <==> date in before && (date in names || !Expired(date, now))
        invariant forall date :: date in archive ==> archive[date] == before[date]
        invariant active == old(active) && archiveOther == old(archiveOther) && backups == old(backups)
        invariant summaries == old(summaries) && hitRows == old(hitRows)
        decreases names
      {
        var name := Choose(names);
        if Expired(name, now) {
          archive := archive - {name};
        }
        names := names - {name};
      }
      ghost var pruned := Prune(before, now);
      assert forall date :: date in archive <==> date in pruned;
      assert archive.Keys == pruned.Keys;
      assert archive == pruned;
    }

    /** save_daily_summary_to_db(date, summary) */
    method SaveDailySummaryToDb(date: int, summary: Summary)
      modifies this
      ensures State() == old(State()).(summaries := SaveSummary(old(summaries), date, summary))
    {
      summaries := summaries[date := SummaryRow(summary.totalHits, |summary.uniqueTickers|, summary.triggerTypes,
                                                summary.priceRanges, summary.performanceMetrics)];
    }

    /** create_permanent_backup(date), with `stamp` the value of time.time(). */
    method CreatePermanentBackup(date: int, stamp: int)
      modifies this
      ensures State() == Backup(old(State()), date, stamp)
    {
      if date !in archive {
        return;
      }
      backups := backups[BackupName(date, stamp) := archive[date]];
      SaveDailySummaryToDb(date, archive[date].dailySummary);
    }

    /** archive_daily_logs(). upload_to_cloud_backup is not defined in the
        module, so when a cloud URL is configured the call raises NameError
        after everything else is done and the function reports False. */
    method ArchiveDailyLogs(now: Clock, stamp: int, cloudBackupConfigured: bool) returns (ok: bool)
      modifies this
      ensures State() == Rollover(old(State()), now, stamp)
      ensures ok == !cloudBackupConfigured
      ensures old(Valid()) ==> Valid()
    {
      var yesterday := now.day - 1;
      if yesterday in active {
        archive := archive[yesterday := active[yesterday]];
        active := active - {yesterday};
      }
      PruneArchive(now);
      CreatePermanentBackup(yesterday, stamp);
      ok := !cloudBackupConfigured;
      if old(Valid()) {
        RolloverKeepsConsistent(old(State()), now, stamp);
      }
    }
  }
}
