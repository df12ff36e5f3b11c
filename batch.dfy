/**
 * The batch endpoint `download_all`: every track is downloaded in turn into
 * one shared directory, under a file prefix derived from its position; the
 * successes are counted, the failed names listed, and the mp3 files present
 * afterwards are packed into a zip whose summary travels in two headers.
 *
 * The batch loop is stated for any per-item step; the server's step runs
 * the strategy loop of `ItemJobs` at each position. The lemmas assume of
 * the step only what they use, such as the prefix each position writes
 * under.
 */
module Batch {
  import opened Text
  import opened Query
  import opened Playlist
  import opened Download

  datatype DownloadAllRequest = DownloadAllRequest(playlistId: string, tracks: seq<Track>)

  /** The zip handed to the client, with its summary headers. */
  datatype ZipResponse = ZipResponse(
    path: string,
    filename: string,
    mediaType: string,
    members: set<string>,
    summary: string,
    failedTracks: string)

  const NoTracksDetail := "Nenhuma música pôde ser baixada. Todas as músicas podem estar bloqueadas ou indisponíveis no YouTube."
  const BatchErrorDetail := "Erro ao processar download em lote"

  /** The prefix `track_{idx:03d}`. */
  function TrackPrefix(idx: nat): string {
    "track_" + ZeroPad(idx, 3)
  }

  function ItemQuery(t: Track): string {
    t.name + " " + t.artist
  }

  /**
   * The strategy loop `download_all` runs at each position: the track's
   * strategy list, that position's search results, the prefix
   * `track_{idx:03d}` and that call's uid. Positions past the end try no
   * strategy.
   */
  function ItemJobs(tracks: seq<Track>, providers: nat -> Provider, uids: nat -> string): nat -> Job {
    (idx: nat) =>
      Job(if idx < |tracks| then Plan(ItemQuery(tracks[idx])) else [], providers(idx), TrackPrefix(idx), uids(idx))
  }

  /** One item of the batch: from the directory the earlier items left, the strategy loop's outcome. */
  type ItemStep = (nat, set<string>) -> Run

  /** Running position `idx`'s strategy loop in the shared directory. */
  function JobSteps(jobs: nat -> Job): ItemStep {
    (idx: nat, files: set<string>) => Resolve(jobs(idx), files, 0)
  }

  /** Every item only adds files, and an item returning True leaves an mp3 behind. */
  ghost predicate KeepsFiles(step: ItemStep) {
    forall idx: nat, files: set<string> {:trigger step(idx, files)} ::
      files <= step(idx, files).files && (step(idx, files).success ==> Mp3s(step(idx, files).files) != {})
  }

  /** Every file item `idx` adds starts with its prefix `track_{idx:03d}` and `_`. */
  ghost predicate PrefixedByPosition(step: ItemStep) {
    forall idx: nat, files: set<string>, f: string {:trigger f in step(idx, files).files} ::
      f in step(idx, files).files && f !in files ==> StartsWith(f, TrackPrefix(idx) + "_")
  }

  /** The strategy loop only adds files, whatever the jobs. */
  lemma JobStepsKeepFiles(jobs: nat -> Job)
    ensures KeepsFiles(JobSteps(jobs))
  {
    forall idx: nat, files: set<string>
      ensures files <= JobSteps(jobs)(idx, files).files
      ensures JobSteps(jobs)(idx, files).success ==> Mp3s(JobSteps(jobs)(idx, files).files) != {}
    {
      ResolveKeepsFiles(jobs(idx), files, 0);
    }
  }

  /** The server's items write under their position's prefix. */
  lemma ItemJobsPrefixed(tracks: seq<Track>, providers: nat -> Provider, uids: nat -> string)
    ensures PrefixedByPosition(JobSteps(ItemJobs(tracks, providers, uids)))
  {
    var jobs := ItemJobs(tracks, providers, uids);
    forall idx: nat, files: set<string>, f: string | f in JobSteps(jobs)(idx, files).files && f !in files
      ensures StartsWith(f, TrackPrefix(idx) + "_")
    {
      var job := jobs(idx);
      assert job.prefix == TrackPrefix(idx);
      ResolveAddsOwnNames(job, files, 0);
      StartsWithShorter(f, TrackPrefix(idx) + "_", job.uid + "_");
    }
  }

  /** The server's step at a position runs that track's strategy list under the position's prefix. */
  lemma ServerItem(tracks: seq<Track>, providers: nat -> Provider, uids: nat -> string, idx: nat, files: set<string>)
    requires idx < |tracks|
    ensures JobSteps(ItemJobs(tracks, providers, uids))(idx, files)
              == Resolve(Job(Plan(ItemQuery(tracks[idx])), providers(idx), TrackPrefix(idx), uids(idx)), files, 0)
  {}

  /** The loop's variables after some items: the counter, the failed names, the shared directory. */
  datatype Tally = Tally(successful: nat, failed: seq<string>, files: set<string>)

  /** The batch loop over the first `n` items, in input order, from an empty directory. */
  function BatchRun(tracks: seq<Track>, step: ItemStep, n: nat): Tally
    requires n <= |tracks|
  {
    if n == 0 then Tally(0, [], {})
    else
      var t := BatchRun(tracks, step, n - 1);
      var run := step(n - 1, t.files);
      if run.success then Tally(t.successful + 1, t.failed, run.files)
      else Tally(t.successful, t.failed + [tracks[n - 1].name], run.files)
  }

  /** Whether item `idx` returned True, in the directory the earlier items left. */
  predicate ItemSucceeded(tracks: seq<Track>, step: ItemStep, idx: nat)
    requires idx < |tracks|
  {
    step(idx, BatchRun(tracks, step, idx).files).success
  }

  /** The positions of the failed items among the first `n`, in input order. */
  function FailedIndices(tracks: seq<Track>, step: ItemStep, n: nat): (ix: seq<nat>)
    requires n <= |tracks|
    ensures |ix| <= n && forall k :: 0 <= k < |ix| ==> ix[k] < n
  {
    if n == 0 then []
    else FailedIndices(tracks, step, n - 1) + (if ItemSucceeded(tracks, step, n - 1) then [] else [n - 1])
  }

  /** The failed positions are increasing, each failed, and every failed item among the first `n` is listed. */
  lemma {:induction false} FailedIndicesExact(tracks: seq<Track>, step: ItemStep, n: nat)
    requires n <= |tracks|
    ensures forall k :: 0 <= k < |FailedIndices(tracks, step, n)| ==>
              !ItemSucceeded(tracks, step, FailedIndices(tracks, step, n)[k])
    ensures forall k, l :: 0 <= k < l < |FailedIndices(tracks, step, n)| ==>
              FailedIndices(tracks, step, n)[k] < FailedIndices(tracks, step, n)[l]
    ensures forall i :: 0 <= i < n && !ItemSucceeded(tracks, step, i) ==> i in FailedIndices(tracks, step, n)
  {
    if n > 0 {
      FailedIndicesExact(tracks, step, n - 1);
      var ix0 := FailedIndices(tracks, step, n - 1);
      var ix := FailedIndices(tracks, step, n);
      if !ItemSucceeded(tracks, step, n - 1) {
        assert ix == ix0 + [n - 1];
        assert ix[|ix0|] == n - 1;
      } else {
        assert ix == ix0;
      }
    }
  }

  /** One iteration: the item runs in the directory the earlier ones left, then the counter or the failed list grows. */
  lemma BatchRunStep(tracks: seq<Track>, step: ItemStep, n: nat)
    requires 0 < n <= |tracks|
    ensures BatchRun(tracks, step, n).successful ==
              BatchRun(tracks, step, n - 1).successful + (if ItemSucceeded(tracks, step, n - 1) then 1 else 0)
    ensures BatchRun(tracks, step, n).failed ==
              BatchRun(tracks, step, n - 1).failed + (if ItemSucceeded(tracks, step, n - 1) then [] else [tracks[n - 1].name])
    ensures BatchRun(tracks, step, n).files == step(n - 1, BatchRun(tracks, step, n - 1).files).files
  {
    assert BatchRun(tracks, step, n - 1).failed + [] == BatchRun(tracks, step, n - 1).failed;
  }

  /**
   * Every item is attempted once, in input order: the counter plus the
   * failed list add up to the number of items, and the failed list holds
   * the names of exactly the failed items, in input order.
   */
  lemma {:induction false} TallyAccounts(tracks: seq<Track>, step: ItemStep, n: nat)
    requires n <= |tracks|
    ensures BatchRun(tracks, step, n).successful + |BatchRun(tracks, step, n).failed| == n
    ensures |BatchRun(tracks, step, n).failed| == |FailedIndices(tracks, step, n)|
    ensures forall k :: 0 <= k < |FailedIndices(tracks, step, n)| ==>
              BatchRun(tracks, step, n).failed[k] == tracks[FailedIndices(tracks, step, n)[k]].name
  {
    if n > 0 {
      TallyAccounts(tracks, step, n - 1);
      BatchRunStep(tracks, step, n);
      var t0 := BatchRun(tracks, step, n - 1);
      var ix0 := FailedIndices(tracks, step, n - 1);
      var t := BatchRun(tracks, step, n);
      var ix := FailedIndices(tracks, step, n);
      if !ItemSucceeded(tracks, step, n - 1) {
        assert ix == ix0 + [n - 1];
        assert t.failed == t0.failed + [tracks[n - 1].name];
        assert ix[|ix0|] == n - 1;
      } else {
        assert ix == ix0 && t.failed == t0.failed;
      }
    }
  }

  /** Once an item has returned True, the shared directory holds an mp3. */
  lemma {:induction false} BatchKeepsMp3(tracks: seq<Track>, step: ItemStep, n: nat)
    requires n <= |tracks| && KeepsFiles(step)
    ensures BatchRun(tracks, step, n).successful > 0 ==> Mp3s(BatchRun(tracks, step, n).files) != {}
  {
    if n > 0 {
      var t := BatchRun(tracks, step, n - 1);
      BatchKeepsMp3(tracks, step, n - 1);
      BatchRunStep(tracks, step, n);
      var run := step(n - 1, t.files);
      assert t.files <= run.files;
      if t.successful > 0 {
        var f :| f in Mp3s(t.files);
        assert f in Mp3s(run.files);
      }
    }
  }

  // ---------------------------------------------------------------------
  // File prefixes
  // ---------------------------------------------------------------------

  /**
   * `f` is named like a batch file of one of the first `n` items: it starts
   * with `track_`, and the digits up to the next `_` are a three-digit
   * padded index, below `n`, that reads back.
   */
  predicate ItemName(f: string, n: nat) {
    && StartsWith(f, "track_")
    && var z := BeforeFirst(f[6..], '_');
       AllDigits(z) && ParseDecimal(z) < n && z == ZeroPad(ParseDecimal(z), 3)
  }

  /** The position a batch file name was written under, read back from its prefix. */
  lemma {:induction false} PrefixNamesItem(idx: nat, f: string)
    requires StartsWith(f, TrackPrefix(idx) + "_")
    ensures StartsWith(f, "track_") && BeforeFirst(f[6..], '_') == ZeroPad(idx, 3)
    ensures ItemName(f, idx + 1)
  {
    var z := ZeroPad(idx, 3);
    var rest := f[|TrackPrefix(idx)| + 1..];
    assert f == "track_" + (z + ['_'] + rest) by {
      assert f[..|TrackPrefix(idx)| + 1] == "track_" + z + "_";
    }
    StartsWithAppend("track_", z + ['_'] + rest);
    assert f[6..] == z + ['_'] + rest;
    DigitsExclude(z, '_');
    BeforeFirstOfJoined(z, '_', rest);
    ParseZeroPad(idx, 3);
  }

  /** With items prefixed by position, every file in the shared directory is named like a batch file of one of the items. */
  lemma {:induction false} BatchFilesCarryPrefix(tracks: seq<Track>, step: ItemStep, n: nat)
    requires n <= |tracks| && PrefixedByPosition(step)
    ensures forall f :: f in BatchRun(tracks, step, n).files ==> ItemName(f, n)
  {
    if n > 0 {
      var t := BatchRun(tracks, step, n - 1);
      BatchFilesCarryPrefix(tracks, step, n - 1);
      BatchRunStep(tracks, step, n);
      forall f | f in step(n - 1, t.files).files
        ensures ItemName(f, n)
      {
        if f !in t.files {
          PrefixNamesItem(n - 1, f);
        }
      }
    }
  }

  /**
   * Distinct items never write the same file name: the zero-padded index
   * is followed by `_`, which no digit is, so a name determines its item.
   */
  lemma ItemNamesDisjoint(i: nat, j: nat, u1: string, u2: string, p1: string, p2: string)
    requires OutputName(TrackPrefix(i), u1, p1) == OutputName(TrackPrefix(j), u2, p2)
    ensures i == j
  {
    var f := OutputName(TrackPrefix(i), u1, p1);
    OutputNameWithPrefix(TrackPrefix(i), u1, p1);
    OutputNameWithPrefix(TrackPrefix(j), u2, p2);
    PrefixNamesItem(i, f);
    PrefixNamesItem(j, f);
    ParseZeroPad(i, 3);
    ParseZeroPad(j, 3);
  }

  // ---------------------------------------------------------------------
  // Summary headers
  // ---------------------------------------------------------------------

  /** The header `X-Download-Summary`: `"{successful}/{total}"`. */
  function SummaryHeader(successful: nat, total: nat): string {
    Decimal(successful) + "/" + Decimal(total)
  }

  /** The header `X-Failed-Tracks`: the first five failed names joined by commas, or empty. */
  function FailedHeader(failed: seq<string>): string {
    if failed != [] then JoinWith(",", failed[..if |failed| < 5 then |failed| else 5]) else ""
  }

  /** The summary header reads back as the two numbers, as a client splitting on `/` sees them. */
  lemma SummaryRoundTrip(successful: nat, total: nat)
    ensures var parts := SplitOn(SummaryHeader(successful, total), '/');
      && |parts| == 2
      && AllDigits(parts[0]) && ParseDecimal(parts[0]) == successful
      && AllDigits(parts[1]) && ParseDecimal(parts[1]) == total
  {
    var a, b := Decimal(successful), Decimal(total);
    DigitsExclude(a, '/');
    DigitsExclude(b, '/');
    assert JoinWith("/", [a, b]) == SummaryHeader(successful, total);
    SplitOnJoin([a, b], '/');
    ParseDecimalOfDecimal(successful);
    ParseDecimalOfDecimal(total);
  }

  /**
   * The failed-tracks header is empty when nothing failed; otherwise,
   * splitting it on commas gives back the first five failed names, as long
   * as no name holds a comma.
   */
  lemma FailedHeaderRoundTrip(failed: seq<string>)
    requires forall k :: 0 <= k < |failed| ==> ',' !in failed[k]
    ensures failed == [] ==> FailedHeader(failed) == ""
    ensures failed != [] ==>
              SplitOn(FailedHeader(failed), ',') == failed[..if |failed| < 5 then |failed| else 5]
  {
    if failed != [] {
      var shown := failed[..if |failed| < 5 then |failed| else 5];
      SplitOnJoin(shown, ',');
    }
  }

  // ---------------------------------------------------------------------
  // download_all
  // ---------------------------------------------------------------------

  /** The zip and headers `download_all` returns when some mp3 is present. */
  function ZipOf(req: DownloadAllRequest, downloadId: string, t: Tally): ZipResponse {
    ZipResponse(
      downloadId + ".zip",
      req.playlistId + "_playlist.zip",
      "application/zip",
      Mp3s(t.files),
      SummaryHeader(t.successful, |req.tracks|),
      FailedHeader(t.failed))
  }

  /**
   * `download_all`: a fresh directory; each track is downloaded in turn
   * under the prefix `track_{idx:03d}`, counting the successes and listing
   * the failures; with no mp3 present the directory is removed and 404 is
   * raised without a zip; otherwise every mp3 present becomes a member
   * under its on-disk name. A failure while writing the zip is reported as
   * 500 and leaves the directory in place.
   */
  method DownloadAll(req: DownloadAllRequest, downloadId: string, uids: nat -> string,
                     providers: nat -> Provider, zipFails: bool)
    returns (r: Result<ZipResponse, HttpError>, ws: Workspace, successful: nat, failed: seq<string>)
    ensures fresh(ws) && ws.id == downloadId
    ensures var t := BatchRun(req.tracks, JobSteps(ItemJobs(req.tracks, providers, uids)), |req.tracks|);
      && successful == t.successful && failed == t.failed
      && (Mp3s(t.files) == {} ==> r == Err(HttpError(404, NoTracksDetail)) && !ws.present && ws.files == {})
      && (Mp3s(t.files) != {} && zipFails ==>
            r == Err(HttpError(500, BatchErrorDetail)) && ws.present && ws.files == t.files)
      && (Mp3s(t.files) != {} && !zipFails ==>
            r == Ok(ZipOf(req, downloadId, t)) && ws.present && ws.files == t.files)
  {
    ghost var jobs := ItemJobs(req.tracks, providers, uids);
    ghost var step := JobSteps(jobs);
    ws := new Workspace(downloadId);
    successful := 0;
    failed := [];
    for idx := 0 to |req.tracks|
      invariant ws.present
      invariant Tally(successful, failed, ws.files) == BatchRun(req.tracks, step, idx)
    {
      var track := req.tracks[idx];
      var query := ItemQuery(track);
      var filePrefix := TrackPrefix(idx);
      ServerItem(req.tracks, providers, uids, idx, ws.files);
      BatchRunStep(req.tracks, step, idx + 1);
      var success, _ := DownloadFromYoutube(ws, query, filePrefix, uids(idx), providers(idx));
      if success {
        successful := successful + 1;
      } else {
        failed := failed + [track.name];
      }
    }
    var mp3Files := Mp3s(ws.files);
    if mp3Files == {} {
      ws.Remove();
      return Err(HttpError(404, NoTracksDetail)), ws, successful, failed;
    }
    if zipFails {
      return Err(HttpError(500, BatchErrorDetail)), ws, successful, failed;
    }
    r := Ok(ZipOf(req, downloadId, Tally(successful, failed, ws.files)));
  }

  // ---------------------------------------------------------------------
  // What the zip holds
  // ---------------------------------------------------------------------

  /** A batch that counted a success always yields a zip rather than the 404. */
  lemma SuccessYieldsZip(tracks: seq<Track>, jobs: nat -> Job)
    ensures BatchRun(tracks, JobSteps(jobs), |tracks|).successful > 0 ==> Mp3s(BatchRun(tracks, JobSteps(jobs), |tracks|).files) != {}
  {
    JobStepsKeepFiles(jobs);
    BatchKeepsMp3(tracks, JobSteps(jobs), |tracks|);
  }

  /**
   * Zip members keep their on-disk names: after any number of items, each
   * mp3 in the shared directory of the server's batch still starts with
   * `track_` and the padded index of one of those items.
   */
  lemma MembersKeepPrefix(tracks: seq<Track>, providers: nat -> Provider, uids: nat -> string, n: nat, m: string)
    requires n <= |tracks|
    requires m in Mp3s(BatchRun(tracks, JobSteps(ItemJobs(tracks, providers, uids)), n).files)
    ensures ItemName(m, n)
  {
    ItemJobsPrefixed(tracks, providers, uids);
    BatchFilesCarryPrefix(tracks, JobSteps(ItemJobs(tracks, providers, uids)), n);
  }

  // ---------------------------------------------------------------------
  // Where the count and the zip part ways
  // ---------------------------------------------------------------------

  /** An item whose first strategy downloads one mp3 counts as a success and adds that file. */
  lemma ItemWritesMp3(tracks: seq<Track>, jobs: nat -> Job, n: nat, part: string)
    requires n < |tracks| && IsMp3(part)
    requires jobs(n).plan != [] && jobs(n).provider(0, jobs(n).plan[0]) == Downloaded({part})
    ensures var t := BatchRun(tracks, JobSteps(jobs), n);
      BatchRun(tracks, JobSteps(jobs), n + 1)
        == Tally(t.successful + 1, t.failed, t.files + {OutputName(jobs(n).prefix, jobs(n).uid, part)})
  {
    var t := BatchRun(tracks, JobSteps(jobs), n);
    var job := jobs(n);
    var name := OutputName(job.prefix, job.uid, part);
    OutputNameKeepsExtension(job.prefix, job.uid, part);
    assert OnDisk(job.prefix, job.uid, {part}) == {name};
    assert name in Mp3s(AfterAttempt(job, t.files, 0));
  }

  /**
   * Once the shared directory holds an mp3, an item whose first strategy
   * downloads without writing anything still counts as a success.
   */
  lemma PhantomSuccess(tracks: seq<Track>, jobs: nat -> Job, n: nat)
    requires n < |tracks|
    requires Mp3s(BatchRun(tracks, JobSteps(jobs), n).files) != {}
    requires jobs(n).plan != [] && jobs(n).provider(0, jobs(n).plan[0]) == Downloaded({})
    ensures var t := BatchRun(tracks, JobSteps(jobs), n);
      BatchRun(tracks, JobSteps(jobs), n + 1) == Tally(t.successful + 1, t.failed, t.files)
  {
    SharedDirectorySuccess(jobs(n), BatchRun(tracks, JobSteps(jobs), n).files);
  }

  /** An item whose every strategy raises after writing the same mp3 fails, and leaves that file behind. */
  lemma ItemRaisesAfterMp3(tracks: seq<Track>, jobs: nat -> Job, n: nat, part: string)
    requires n < |tracks| && IsMp3(part)
    requires jobs(n).plan != []
    requires forall k: nat :: k < |jobs(n).plan| ==> jobs(n).provider(k, jobs(n).plan[k]) == Raised({part})
    ensures var t := BatchRun(tracks, JobSteps(jobs), n);
      BatchRun(tracks, JobSteps(jobs), n + 1)
        == Tally(t.successful, t.failed + [tracks[n].name], t.files + {OutputName(jobs(n).prefix, jobs(n).uid, part)})
  {
    var t := BatchRun(tracks, JobSteps(jobs), n);
    var job := jobs(n);
    assert OnDisk(job.prefix, job.uid, {part}) == {OutputName(job.prefix, job.uid, part)};
    AllRaised(job, t.files, 0, {part});
  }

  /**
   * The counter is not the number of files: when item `n` writes one mp3
   * and item `n + 1` downloads without writing anything, both count as
   * successes while the zip gains a single member.
   */
  lemma CountExceedsMembers(tracks: seq<Track>, jobs: nat -> Job, n: nat, part: string)
    requires n + 2 <= |tracks| && IsMp3(part)
    requires jobs(n).plan != [] && jobs(n).provider(0, jobs(n).plan[0]) == Downloaded({part})
    requires jobs(n + 1).plan != [] && jobs(n + 1).provider(0, jobs(n + 1).plan[0]) == Downloaded({})
    ensures var t, t2 := BatchRun(tracks, JobSteps(jobs), n), BatchRun(tracks, JobSteps(jobs), n + 2);
      && t2.successful == t.successful + 2 && t2.failed == t.failed
      && Mp3s(t2.files) == Mp3s(t.files) + {OutputName(jobs(n).prefix, jobs(n).uid, part)}
  {
    var name := OutputName(jobs(n).prefix, jobs(n).uid, part);
    var t := BatchRun(tracks, JobSteps(jobs), n);
    ItemWritesMp3(tracks, jobs, n, part);
    var t1 := BatchRun(tracks, JobSteps(jobs), n + 1);
    assert t1 == Tally(t.successful + 1, t.failed, t.files + {name});
    OutputNameKeepsExtension(jobs(n).prefix, jobs(n).uid, part);
    Mp3sAddOne(t.files, name);
    assert Mp3s(t1.files) == Mp3s(t.files) + {name};
    PhantomSuccess(tracks, jobs, n + 1);
    assert BatchRun(tracks, JobSteps(jobs), n + 2) == Tally(t1.successful + 1, t1.failed, t1.files);
  }

  /**
   * A failed item can still fill the zip: when the last item's strategies
   * all raise after writing an mp3, the counter does not move, yet an mp3
   * is present, so a zip is produced even if no item ever succeeded.
   */
  lemma FailedItemStillZipped(tracks: seq<Track>, jobs: nat -> Job, part: string)
    requires |tracks| > 0 && IsMp3(part)
    requires jobs(|tracks| - 1).plan != []
    requires var job := jobs(|tracks| - 1);
      forall k: nat :: k < |job.plan| ==> job.provider(k, job.plan[k]) == Raised({part})
    ensures var t, t2 := BatchRun(tracks, JobSteps(jobs), |tracks| - 1), BatchRun(tracks, JobSteps(jobs), |tracks|);
      && t2.successful == t.successful
      && t2.failed == t.failed + [tracks[|tracks| - 1].name]
      && Mp3s(t2.files) != {}
  {
    var last := |tracks| - 1;
    var job := jobs(last);
    var name := OutputName(job.prefix, job.uid, part);
    ItemRaisesAfterMp3(tracks, jobs, last, part);
    OutputNameKeepsExtension(job.prefix, job.uid, part);
    assert name in Mp3s(BatchRun(tracks, JobSteps(jobs), last + 1).files);
  }
}
